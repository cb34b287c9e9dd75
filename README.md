# SquadGPT core, modelled in Dafny

SquadGPT helps a product manager write a product requirements document
(PRD). The document moves through six stages: Aperture, Discovery, Define,
Design, Deliver and Live. A React front end keeps the document in a shared
store. An assistant chat, a four-agent "squad" and a stage recommender work
on that store. A Fastify back end validates requests, formats prompts and
chains calls to a language model.

This project models the parts of that system that hold logic:

- the document store with its bounded, newest-first version history (`PRDContext`);
- the stage recommender and the banner that shows its advice (`StageRecommendation`, `StageRecommendationBanner`);
- the list edits and guarded request handlers of the editor and Live panels (`PRDEditorPanel`, `LiveStagePanel`);
- the version-history dropdown (`VersionHistoryDropdown`);
- stage order, status and progress in the sidebar and journey map (`StageSidebar`, `SquadJourneyMap`);
- the chat, the home page, the start-PRD form and the onboarding tour (`ChatInterface`, `HomePage`, `StartPRDPage`, `OnboardingTour`);
- the agent debate panel, the summary card and the project header (`AgentDebatePanel`, `AgentSummaryCard`, `ProjectHeader`);
- the back end's request validation, error mapping, prompt formatting and four-step workflow (`Backend`).

Each source file becomes one module, and `Common` holds the JavaScript string
operations they share. Component state that the source updates in place
becomes a class whose methods carry `modifies` clauses. Pure helpers become
functions. Every `fetch` is split in two. A `Begin…` method holds the guard,
the state before the request, and returns the request. A `Finish…` method
takes the outcome as a parameter (`Common.Reply`): success, a rejected
response with an optional error message, or a network error. Clock readings,
random id suffixes, prompt-dialog answers and language-model replies are
parameters too. The language model is a function `Prompt -> Result<string,
string>` that the model knows nothing about.

## Model

| member | source | states |
|---|---|---|
| PRDContext.ParseStage | squadgpt-frontend/src/contexts/PRDContext.tsx:19 | only the six stage names parse, and each parses back to the stage it names |
| PRDContext.ParseStageName | squadgpt-frontend/src/contexts/PRDContext.tsx:19 | parsing a stage's name gives that stage (round trip) |
| PRDContext.InitialSections | squadgpt-frontend/src/contexts/PRDContext.tsx:48-57 | all eight sections are present, each of its declared type, and each is '' or [] |
| PRDContext.VersionId | squadgpt-frontend/src/contexts/PRDContext.tsx:91 | a snapshot id starts with the section name followed by '-' |
| PRDContext.NewVersion | squadgpt-frontend/src/contexts/PRDContext.tsx:88-92 | the snapshot holds the given content and clock reading |
| PRDContext.PushVersion | squadgpt-frontend/src/contexts/PRDContext.tsx:94-97 | the history after an add has length min(n+1, 5), the new snapshot at its head and the first entries of the old history, in order, behind it |
| PRDContext.PushAllKeepsNewest | squadgpt-frontend/src/contexts/PRDContext.tsx:94-101 | after any number of adds the history is the newest five snapshots, newest first |
| PRDContext.FindVersion | squadgpt-frontend/src/contexts/PRDContext.tsx:120 | none is found exactly when no snapshot carries the id; otherwise the first snapshot carrying it is found |
| PRDContext.PRDStore.constructor | squadgpt-frontend/src/contexts/PRDContext.tsx:46-57 | the stage is Aperture, the title is empty, the sections are the initial ones and every history is empty |
| PRDContext.PRDStore.SetStage | squadgpt-frontend/src/contexts/PRDContext.tsx:46 | the stage becomes the given one and nothing else changes |
| PRDContext.PRDStore.SetTitle | squadgpt-frontend/src/contexts/PRDContext.tsx:47 | the title becomes the given one and nothing else changes |
| PRDContext.PRDStore.AddVersion | squadgpt-frontend/src/contexts/PRDContext.tsx:87-103 | only the named section's history changes, and it changes by `PushVersion`; the store stays valid and well typed |
| PRDContext.PRDStore.UpdateSection | squadgpt-frontend/src/contexts/PRDContext.tsx:105-116 | the section becomes the content and no other section, the stage or the title changes; the four versioned sections gain exactly one snapshot and the others gain none |
| PRDContext.PRDStore.RestoreSection | squadgpt-frontend/src/contexts/PRDContext.tsx:118-128 | with a known id the section becomes that snapshot's content; with an unknown id nothing changes; the histories never change |
| PRDContext.PRDStore.GetSectionVersions | squadgpt-frontend/src/contexts/PRDContext.tsx:130-132 | returns the stored history (or [] when none is stored), which holds at most five entries, and changes nothing |
| StageRecommendation.FractionBounds | squadgpt-frontend/src/utils/stageRecommendation.ts:53-65 | a count over a positive total lies in [0, 1], is 1 only for the whole and 0 for none |
| StageRecommendation.TextQuality | squadgpt-frontend/src/utils/stageRecommendation.ts:30-44 | the text score always lies in [0, 1] |
| StageRecommendation.TextQualityZero | squadgpt-frontend/src/utils/stageRecommendation.ts:31-38 | a text scores 0 exactly when it is empty or blank |
| StageRecommendation.TextQualityWords | squadgpt-frontend/src/utils/stageRecommendation.ts:33-43 | a non-blank text scores at least min(words/10, 1), so at least 0.1, and ten words give the full score |
| StageRecommendation.NonBlankItems | squadgpt-frontend/src/utils/stageRecommendation.ts:50 | the kept items are all non-blank; a list of blanks keeps none and a list without blanks keeps all |
| StageRecommendation.ArrayQuality | squadgpt-frontend/src/utils/stageRecommendation.ts:47-58 | the list score always lies in [0, 1] |
| StageRecommendation.ArrayQualityShare | squadgpt-frontend/src/utils/stageRecommendation.ts:48-57 | an empty or all-blank list scores 0, a list without blanks scores 1, and every non-empty list scores at least its share of non-blank items |
| StageRecommendation.CountWhere | squadgpt-frontend/src/utils/stageRecommendation.ts:64 | the length of a filtered list is at most the list's length |
| StageRecommendation.CountWhereAll | squadgpt-frontend/src/utils/stageRecommendation.ts:64 | the filter keeps every element exactly when every element passes |
| StageRecommendation.CountWhereNone | squadgpt-frontend/src/utils/stageRecommendation.ts:64 | the filter keeps no element exactly when no element passes |
| StageRecommendation.CountSubstantial | squadgpt-frontend/src/utils/stageRecommendation.ts:64 | at most one per response is counted |
| StageRecommendation.CountSubstantialExtremes | squadgpt-frontend/src/utils/stageRecommendation.ts:64 | the count equals the number of responses exactly when every trimmed response is longer than 50 characters, and is zero exactly when none is |
| StageRecommendation.AgentQuality | squadgpt-frontend/src/utils/stageRecommendation.ts:61-66 | the agent score lies in [0, 1] and is 0 when the responses are absent or empty |
| StageRecommendation.AgentQualityShare | squadgpt-frontend/src/utils/stageRecommendation.ts:64-65 | for a non-empty list the score is exactly the share of substantial responses, and 1 only when all are |
| StageRecommendation.Next | squadgpt-frontend/src/utils/stageRecommendation.ts:73-199 | the stage an advance names is never the current one |
| StageRecommendation.TitleScore | squadgpt-frontend/src/utils/stageRecommendation.ts:74 | the title scores 1 exactly when it is longer than five characters, and 0 otherwise |
| StageRecommendation.ApertureAnalysis | squadgpt-frontend/src/utils/stageRecommendation.ts:73-95 | advance to Discovery exactly when the mean of the three scores reaches 0.7, otherwise review Aperture; always high confidence |
| StageRecommendation.DiscoveryAnalysis | squadgpt-frontend/src/utils/stageRecommendation.ts:97-121 | advance to Define exactly when the mean of the five scores reaches 0.6, otherwise review Discovery; high confidence on advance and medium on review |
| StageRecommendation.DefineAnalysis | squadgpt-frontend/src/utils/stageRecommendation.ts:123-146 | advance to Design exactly when the mean of the four scores reaches 0.7, otherwise review Discovery; high confidence on advance and medium on review |
| StageRecommendation.DesignAnalysis | squadgpt-frontend/src/utils/stageRecommendation.ts:148-168 | advance to Deliver exactly when both scores reach 0.6, otherwise review Define; always medium confidence |
| StageRecommendation.DeliverAnalysis | squadgpt-frontend/src/utils/stageRecommendation.ts:170-178 | always advance to Live with high confidence |
| StageRecommendation.LiveAnalysis | squadgpt-frontend/src/utils/stageRecommendation.ts:180-199 | advance to Aperture exactly when either score reaches 0.5, otherwise review Live; medium confidence on advance and high on review |
| StageRecommendation.Recommend | squadgpt-frontend/src/utils/stageRecommendation.ts:68-203 | the action is never 'stay' and the confidence never low; an advance names the next stage in the cycle; a review names the stage's fixed review target; Deliver always yields Live, high, advance |
| StageRecommendation.ApertureThreshold | squadgpt-frontend/src/utils/stageRecommendation.ts:74-80 | in Aperture the advice is to advance exactly when the mean of the title, problem and learnings scores reaches 0.7 |
| StageRecommendation.DiscoveryThreshold | squadgpt-frontend/src/utils/stageRecommendation.ts:98-106 | in Discovery the advice is to advance exactly when the mean of the five scores reaches 0.6 |
| StageRecommendation.DefineThreshold | squadgpt-frontend/src/utils/stageRecommendation.ts:124-131 | in Define the advice is to advance exactly when the mean of the four scores reaches 0.7 |
| StageRecommendation.DesignThreshold | squadgpt-frontend/src/utils/stageRecommendation.ts:150-153 | in Design the advice is to advance exactly when both scores reach 0.6 |
| StageRecommendation.LiveThreshold | squadgpt-frontend/src/utils/stageRecommendation.ts:181-184 | in Live the advice is to advance exactly when either score reaches 0.5 |
| StageRecommendation.RecommendationAlwaysShown | squadgpt-frontend/src/utils/stageRecommendation.ts:73-199 | every recommendation names another stage or asks for a review |
| StageRecommendation.FullAperture | squadgpt-frontend/src/utils/stageRecommendation.ts:73-86 | a title longer than five characters plus ten-word problem statement and learnings advance Aperture to Discovery |
| StageRecommendation.EmptyLiveReviews | squadgpt-frontend/src/utils/stageRecommendation.ts:180-198 | in Live, no post-launch metrics and blank feedback give a review of Live |
| StageRecommendation.StageRequirements | squadgpt-frontend/src/utils/stageRecommendation.ts:206-241 | every stage has at least two requirements, none of them empty |
| StageRecommendationBanner.Snapshot | squadgpt-frontend/src/components/StageRecommendationBanner.tsx:23-28 | the document handed to the recommender carries the store's stage, title and all eight sections as they are, and the given agent responses |
| StageRecommendationBanner.ActionButton | squadgpt-frontend/src/components/StageRecommendationBanner.tsx:82-103 | 'Move to X' exactly for an advance to a stage other than the current one, 'Review X' exactly for a review, no button otherwise; a button always targets the recommended stage |
| StageRecommendationBanner.ButtonLabel | squadgpt-frontend/src/components/StageRecommendationBanner.tsx:89-98 | a caption is empty exactly when there is no button |
| StageRecommendationBanner.RecommendedHasButton | squadgpt-frontend/src/components/StageRecommendationBanner.tsx:82-103 | every recommendation the recommender produces gets a button |
| StageRecommendationBanner.BannerStyle | squadgpt-frontend/src/components/StageRecommendationBanner.tsx:54-67 | green exactly for advance, yellow exactly for review, blue exactly for stay |
| StageRecommendationBanner.BannerStyleInjective | squadgpt-frontend/src/components/StageRecommendationBanner.tsx:57-66 | two recommendations share a colour exactly when they share an action |
| StageRecommendationBanner.Banner.constructor | squadgpt-frontend/src/components/StageRecommendationBanner.tsx:17-19 | no recommendation, not visible, not dismissed |
| StageRecommendationBanner.Banner.Recompute | squadgpt-frontend/src/components/StageRecommendationBanner.tsx:21-40 | every recommendation is worth showing, so the effect's hiding branch is dead: the new recommendation is stored and the banner is made visible, undismissed and rendered |
| StageRecommendationBanner.Banner.HandleAdvance | squadgpt-frontend/src/components/StageRecommendationBanner.tsx:42-47 | with a recommendation the stage becomes its stage and the banner hides; without one nothing changes; right after the handler the banner does not render |
| StageRecommendationBanner.Banner.AdvanceThenRecompute | squadgpt-frontend/src/components/StageRecommendationBanner.tsx:21-47 | the stage change an advance makes reruns the effect: the document is in the recommended stage and the banner renders the recommendation for it |
| StageRecommendationBanner.Banner.HandleDismiss | squadgpt-frontend/src/components/StageRecommendationBanner.tsx:49-52 | the banner is dismissed and hidden and does not render until the effect runs again |
| StageRecommendationBanner.Banner.DismissThenRerender | squadgpt-frontend/src/components/StageRecommendationBanner.tsx:21-52 | a dismissal followed by a rerun of the effect for the same document leaves the banner undismissed and rendering |
| StageRecommendationBanner.Banner.RecomputeOnChange | squadgpt-frontend/src/components/StageRecommendationBanner.tsx:21-40 | a rerun for a document equal to the previous one changes nothing; otherwise the recommendation is recomputed and shown |
| StageRecommendationBanner.Banner.DismissThenUnchangedRerender | squadgpt-frontend/src/components/StageRecommendationBanner.tsx:21-52 | with the effect keyed on the document's value, a dismissal survives a re-render that leaves the document unchanged |
| StageRecommendationBanner.Banner.ClickReview | squadgpt-frontend/src/components/StageRecommendationBanner.tsx:95 | the review button of the shown recommendation moves the document to the stage under review |
| PRDEditorPanel.AppendItem | squadgpt-frontend/src/components/PRDEditorPanel.tsx:68 | the list grows by one '' item and the earlier items are unchanged |
| PRDEditorPanel.ReplaceItem | squadgpt-frontend/src/components/PRDEditorPanel.tsx:72-73 | the length is unchanged, the item at the index is the new value and every other item is unchanged |
| PRDEditorPanel.KeepOthers | squadgpt-frontend/src/components/PRDEditorPanel.tsx:78 | filtering by position drops exactly the item at the index, or nothing when the index is outside the list |
| PRDEditorPanel.RemoveItem | squadgpt-frontend/src/components/PRDEditorPanel.tsx:77-80 | an index inside the list removes exactly that item and the list shrinks by one; any other index leaves the list as it is |
| PRDEditorPanel.RemoveItemKeepsOrder | squadgpt-frontend/src/components/PRDEditorPanel.tsx:78 | the remaining items keep their relative order |
| PRDEditorPanel.RemoveAppended | squadgpt-frontend/src/components/PRDEditorPanel.tsx:66-80 | removing the item just appended gives the list back |
| PRDEditorPanel.Tabs | squadgpt-frontend/src/components/PRDEditorPanel.tsx:82-89 | the five fixed tabs come first in order, and 'Live Data' is appended exactly in Live stage |
| PRDEditorPanel.RequestContent | squadgpt-frontend/src/components/PRDEditorPanel.tsx:46 | a text is sent as it is and a list is joined with new lines (one item alone, none as '') |
| PRDEditorPanel.EditorPanel.constructor | squadgpt-frontend/src/components/PRDEditorPanel.tsx:17-33 | every flagged section starts with its summarising flag down |
| PRDEditorPanel.EditorPanel.AddArrayItem | squadgpt-frontend/src/components/PRDEditorPanel.tsx:66-69 | the section becomes the list with one '' appended; a versioned section gains a snapshot of it and nothing else changes |
| PRDEditorPanel.EditorPanel.UpdateArrayItem | squadgpt-frontend/src/components/PRDEditorPanel.tsx:71-75 | the section becomes the list with the one item replaced; a versioned section gains a snapshot of it and nothing else changes |
| PRDEditorPanel.EditorPanel.RemoveArrayItem | squadgpt-frontend/src/components/PRDEditorPanel.tsx:77-80 | the section becomes the list without the item at the index; a versioned section gains a snapshot of it and nothing else changes |
| PRDEditorPanel.EditorPanel.BeginSummarize | squadgpt-frontend/src/components/PRDEditorPanel.tsx:35-48 | raises only this section's flag and sends the section's name, its content as text and the stage |
| PRDEditorPanel.EditorPanel.FinishSummarize | squadgpt-frontend/src/components/PRDEditorPanel.tsx:53-63 | lowers only this section's flag in every outcome; a successful reply replaces the section by the summary (with a snapshot when versioned); a failure changes no section and no history; after a successful summary of a list section that section holds a string, so the document is no longer well typed |
| LiveStagePanel.AnalysisPrompt | squadgpt-frontend/src/components/LiveStagePanel.tsx:42-58 | the analysis prompt opens with the fixed sentence naming the title, ends with the feedback block and the fixed closing instructions, and is exactly 343 characters longer than the title, both metric lists (one per line) and the feedback together |
| LiveStagePanel.FollowUpPrompt | squadgpt-frontend/src/components/LiveStagePanel.tsx:93-113 | the follow-up prompt opens with the fixed sentence naming the title, ends with the hypothesis-validation block and the fixed closing instructions, and is exactly 407 characters longer than its five interpolated values together |
| LiveStagePanel.AnalysisContext | squadgpt-frontend/src/components/LiveStagePanel.tsx:68 | the analysis context starts with 'Project: ' and the title |
| LiveStagePanel.FollowUpContext | squadgpt-frontend/src/components/LiveStagePanel.tsx:123 | the follow-up context starts with 'Project: ' and the title and ends with the validation text |
| LiveStagePanel.CompareMetrics | squadgpt-frontend/src/components/LiveStagePanel.tsx:150-153 | a comparison exists exactly when both metric lists are non-empty, and it shows both lists as they are |
| LiveStagePanel.LivePanel.constructor | squadgpt-frontend/src/components/LiveStagePanel.tsx:14-15 | neither request is in flight |
| LiveStagePanel.LivePanel.AddPostLaunchMetric | squadgpt-frontend/src/components/LiveStagePanel.tsx:17-20 | the metrics gain one '' item, and no history changes |
| LiveStagePanel.LivePanel.UpdatePostLaunchMetric | squadgpt-frontend/src/components/LiveStagePanel.tsx:22-26 | only the metric at the index changes, and no history changes |
| LiveStagePanel.LivePanel.RemovePostLaunchMetric | squadgpt-frontend/src/components/LiveStagePanel.tsx:28-31 | exactly the metric at the index is removed, and no history changes |
| LiveStagePanel.LivePanel.BeginAnalyze | squadgpt-frontend/src/components/LiveStagePanel.tsx:33-71 | with no metrics and no feedback there is no request and no change; otherwise the flag goes up and the request carries the full analysis prompt (fixed wording included), stage 'Live' and the context |
| LiveStagePanel.LivePanel.FinishAnalyze | squadgpt-frontend/src/components/LiveStagePanel.tsx:73-85 | only a successful reply writes the hypothesis validation; a failure changes no section; the flag is down afterwards and no history changes |
| LiveStagePanel.LivePanel.BeginFollowUp | squadgpt-frontend/src/components/LiveStagePanel.tsx:88-126 | the flag goes up and the request carries the full follow-up prompt (fixed wording included), stage 'Live' and the title-and-validation context |
| LiveStagePanel.LivePanel.FinishFollowUp | squadgpt-frontend/src/components/LiveStagePanel.tsx:128-147 | only a successful reply writes the next steps and navigates to a new workspace; a failure changes no section and does not navigate; the flag is down afterwards |
| VersionHistoryDropdown.FormatTimestamp | squadgpt-frontend/src/components/VersionHistoryDropdown.tsx:39-48 | 'Just now' below one minute, 'm ago' below an hour, 'h ago' (whole hours) below a day, the locale date otherwise |
| VersionHistoryDropdown.HoursInRange | squadgpt-frontend/src/components/VersionHistoryDropdown.tsx:46 | the hour count shown lies between 1 and 23 |
| VersionHistoryDropdown.FormatContent | squadgpt-frontend/src/components/VersionHistoryDropdown.tsx:50-55 | a list is joined with ', ' or shown as 'Empty'; a text over 50 characters is cut to 50 plus '...'; '' is 'Empty'; other texts are unchanged; a shown text has at most 53 characters |
| VersionHistoryDropdown.FormatContentPrefix | squadgpt-frontend/src/components/VersionHistoryDropdown.tsx:54 | a shown non-empty text starts with a prefix of the stored text |
| VersionHistoryDropdown.VersionNumber | squadgpt-frontend/src/components/VersionHistoryDropdown.tsx:113 | the label number lies between 1 and the number of snapshots |
| VersionHistoryDropdown.VersionNumbersDistinct | squadgpt-frontend/src/components/VersionHistoryDropdown.tsx:113-119 | the newest snapshot is numbered n, and the numbers are distinct and decrease down the list |
| VersionHistoryDropdown.FindIndex | squadgpt-frontend/src/components/VersionHistoryDropdown.tsx:136 | -1 exactly when no snapshot has the id; otherwise the first index that has it |
| VersionHistoryDropdown.FindIndexFindsVersion | squadgpt-frontend/src/components/VersionHistoryDropdown.tsx:136 | the footer's index lookup and the store's snapshot lookup find the same snapshot |
| VersionHistoryDropdown.FooterNumberAsWritten | squadgpt-frontend/src/components/VersionHistoryDropdown.tsx:136 | the footer as written shows the position from the top plus one, 0 when the snapshot is gone |
| VersionHistoryDropdown.FooterDisagreesWithList | squadgpt-frontend/src/components/VersionHistoryDropdown.tsx:113-136 | with two snapshots, selecting the newest shows 'Version 2' in the list and 'Version 1' in the footer |
| VersionHistoryDropdown.FooterNumber | squadgpt-frontend/src/components/VersionHistoryDropdown.tsx:113-136 | the corrected footer numbers the selected snapshot as the list does, and shows nothing when it is gone |
| VersionHistoryDropdown.FooterMatchesList | squadgpt-frontend/src/components/VersionHistoryDropdown.tsx:113-136 | with distinct ids, the corrected footer shows the number the list gives the selected snapshot |
| VersionHistoryDropdown.Heading | squadgpt-frontend/src/components/VersionHistoryDropdown.tsx:92 | the heading is the section name with a space inserted before every capital and its first letter, always a lower-case letter in a key, turned into a capital; everything after the first character is the spaced name unchanged |
| VersionHistoryDropdown.TwoWordCapitalized | squadgpt-frontend/src/components/VersionHistoryDropdown.tsx:92 | a camel-cased pair of words becomes the two words, the first capitalised, separated by one space |
| VersionHistoryDropdown.CapitalizeFirstWord | squadgpt-frontend/src/components/VersionHistoryDropdown.tsx:92 | capitalising a text that starts with a lower-case word capitalises that word and keeps the rest |
| VersionHistoryDropdown.SpelledHeadings | squadgpt-frontend/src/components/VersionHistoryDropdown.tsx:92 | the problem statement's heading is 'Problem Statement' and the trade-offs heading 'Trade Offs' |
| VersionHistoryDropdown.ProblemStatementHeading | squadgpt-frontend/src/components/VersionHistoryDropdown.tsx:92 | the problem statement's heading is 'Problem Statement' |
| VersionHistoryDropdown.TradeOffsHeading | squadgpt-frontend/src/components/VersionHistoryDropdown.tsx:92 | the trade-offs heading is 'Trade Offs' |
| Common.SpaceCapitalsKeepsFirst | squadgpt-frontend/src/components/VersionHistoryDropdown.tsx:92 | a text that does not start with a capital keeps its first character when spaces are inserted |
| Common.CapitalizeFirst | squadgpt-frontend/src/components/VersionHistoryDropdown.tsx:92 | the first character becomes its capital unless it is a line terminator (then nothing changes); the rest and the length are kept |
| VersionHistoryDropdown.Dropdown.constructor | squadgpt-frontend/src/components/VersionHistoryDropdown.tsx:19-20 | closed, with nothing selected |
| VersionHistoryDropdown.Dropdown.Toggle | squadgpt-frontend/src/components/VersionHistoryDropdown.tsx:76 | the button flips the open flag |
| VersionHistoryDropdown.Dropdown.ClickOutside | squadgpt-frontend/src/components/VersionHistoryDropdown.tsx:26-37 | a click outside closes the dropdown |
| VersionHistoryDropdown.Dropdown.SelectVersion | squadgpt-frontend/src/components/VersionHistoryDropdown.tsx:65-67 | the clicked snapshot becomes the selection |
| VersionHistoryDropdown.Dropdown.HandleRestore | squadgpt-frontend/src/components/VersionHistoryDropdown.tsx:57-63 | without a selection nothing changes; with one the store restores its id, the selection is cleared and the dropdown closes |
| StageSidebar.IndexOf | squadgpt-frontend/src/components/StageSidebar.tsx:18-19 | -1 exactly when the stage is not listed; otherwise the first position holding it |
| StageSidebar.StageIndex | squadgpt-frontend/src/components/StageSidebar.tsx:5-12 | every stage is listed, at the position the fixed order Aperture, Discovery, Define, Design, Deliver, Live gives it |
| StageSidebar.StageIndexInjective | squadgpt-frontend/src/components/StageSidebar.tsx:5-12 | distinct stages sit at distinct positions |
| StageSidebar.StageStatus | squadgpt-frontend/src/components/StageSidebar.tsx:17-24 | completed exactly below the current index, current exactly at the current stage, pending exactly above |
| StageSidebar.ExactlyOneCurrent | squadgpt-frontend/src/components/StageSidebar.tsx:17-24 | exactly one entry of the list is current, the one at the current stage's index |
| StageSidebar.StatusByPosition | squadgpt-frontend/src/components/StageSidebar.tsx:17-24 | entries before the current one are completed and entries after it pending |
| StageSidebar.HighlightedIsCurrent | squadgpt-frontend/src/components/StageSidebar.tsx:51-61 | the highlighted entry is exactly the one whose status is current |
| StageSidebar.Progress | squadgpt-frontend/src/components/StageSidebar.tsx:95 | the percentage is (index+1)·100/6 rounded to the nearest integer, between 1 and 100 |
| StageSidebar.ProgressValues | squadgpt-frontend/src/components/StageSidebar.tsx:95 | the six percentages are 17, 33, 50, 67, 83 and 100 |
| StageSidebar.ProgressIncreasing | squadgpt-frontend/src/components/StageSidebar.tsx:95 | progress grows strictly along the stage order |
| StageSidebar.ClickStage | squadgpt-frontend/src/components/StageSidebar.tsx:79 | a click moves the document to the clicked stage |
| SquadJourneyMap.SameOrder | squadgpt-frontend/src/components/SquadJourneyMap.tsx:5-12 | the map lists the stages in the sidebar's order |
| SquadJourneyMap.JourneyStatus | squadgpt-frontend/src/components/SquadJourneyMap.tsx:17-24 | the map classifies every stage exactly as the sidebar does |
| SquadJourneyMap.JourneyStyle | squadgpt-frontend/src/components/SquadJourneyMap.tsx:26-46 | the primary style exactly for the current stage, green exactly for completed ones, muted exactly for pending ones, and never the switch's 'current' style |
| SquadJourneyMap.JourneyProgress | squadgpt-frontend/src/components/SquadJourneyMap.tsx:91 | the map's percentage equals the sidebar's for every stage |
| SquadJourneyMap.ClickPill | squadgpt-frontend/src/components/SquadJourneyMap.tsx:60 | a click moves the document to the clicked stage |
| ChatInterface.Part | squadgpt-frontend/src/components/ChatInterface.tsx:54-72 | a part is collected exactly when its field is present |
| ChatInterface.ContextPartsShape | squadgpt-frontend/src/components/ChatInterface.tsx:51-72 | every collected part is non-empty, and there is one part per non-empty field |
| ChatInterface.FivePartsShape | squadgpt-frontend/src/components/ChatInterface.tsx:51-72 | five optional non-empty parts collect into a list of non-empty parts, one per present part |
| ChatInterface.ConcatNonEmpty | squadgpt-frontend/src/components/ChatInterface.tsx:51-72 | appending two lists of non-empty parts gives a list of non-empty parts |
| ChatInterface.FullContextParts | squadgpt-frontend/src/components/ChatInterface.tsx:54-72 | a fully filled document yields the five labelled parts in the order title, problem, metrics (joined with ', '), trade-offs (joined with ', '), learnings |
| ChatInterface.ContextText | squadgpt-frontend/src/components/ChatInterface.tsx:51-75 | the context is '' exactly when all five fields are empty |
| ChatInterface.FormatPRDContext | squadgpt-frontend/src/components/ChatInterface.tsx:51-75 | the context built by pushing parts one at a time is the specified context of the store's document |
| ChatInterface.BuildContext | squadgpt-frontend/src/components/ChatInterface.tsx:52-74 | the push-then-join loop body yields the present parts joined with new lines |
| ChatInterface.SentContext | squadgpt-frontend/src/components/ChatInterface.tsx:103 | the context sent is never empty, an empty context is replaced by the placeholder, and any other is sent as it is |
| ChatInterface.History | squadgpt-frontend/src/components/ChatInterface.tsx:104-107 | the history has one entry per message with its role and content, in order |
| ChatInterface.ReplyText | squadgpt-frontend/src/components/ChatInterface.tsx:113-141 | the assistant says the reply on success, the server-error text on a rejected response and the network-error text on a network error |
| ChatInterface.Chat.constructor | squadgpt-frontend/src/components/ChatInterface.tsx:38-40 | no messages, an empty input and no request in flight |
| ChatInterface.Chat.SetInput | squadgpt-frontend/src/components/ChatInterface.tsx:39 | the input becomes the typed text |
| ChatInterface.Chat.BeginSend | squadgpt-frontend/src/components/ChatInterface.tsx:77-109 | a blank input or a request in flight changes nothing and sends nothing; otherwise the user message is appended, the input cleared, loading raised, and the request carries the message, stage, non-empty context and the history of the earlier messages only |
| ChatInterface.Chat.AcceptSend | squadgpt-frontend/src/components/ChatInterface.tsx:80-109 | the user message is appended, the input cleared and loading raised, and the request carries the message as typed, the stage, the document's context before the update and the earlier messages |
| ChatInterface.Chat.FinishSend | squadgpt-frontend/src/components/ChatInterface.tsx:111-144 | exactly one assistant message is appended for every outcome and loading ends |
| ChatInterface.Chat.SendMessage | squadgpt-frontend/src/components/ChatInterface.tsx:77-145 | an ignored send changes nothing; an accepted one grows the list by exactly two, the user message then the assistant's, and ends with an empty input and no request in flight |
| HomePage.AllAt | squadgpt-frontend/src/app/page.tsx:72-77 | all four agents get the same status |
| HomePage.FailureMessage | squadgpt-frontend/src/app/page.tsx:121 | the server's error text when it sent a non-empty one, the fixed failure text otherwise; never empty |
| HomePage.OutcomeNotice | squadgpt-frontend/src/app/page.tsx:106-136 | the notice is a success exactly when the request succeeded, and its text is never empty |
| HomePage.Candidates | squadgpt-frontend/src/app/page.tsx:84-89 | the page's builder has five candidates, one per field |
| HomePage.FilterNonEmpty | squadgpt-frontend/src/app/page.tsx:90 | the filter keeps only non-empty strings and never adds any |
| HomePage.Kept | squadgpt-frontend/src/app/page.tsx:90 | one candidate is kept exactly when it is non-empty |
| HomePage.FilterFive | squadgpt-frontend/src/app/page.tsx:84-90 | filtering the five candidates keeps each one on its own terms, in order |
| HomePage.FilterStep | squadgpt-frontend/src/app/page.tsx:90 | filtering one more candidate appends what the filter keeps of it |
| HomePage.PageContextMatchesChat | squadgpt-frontend/src/app/page.tsx:84-90 | the context the page submits equals the chat panel's context for the same document |
| HomePage.FormatAgentResponses | squadgpt-frontend/src/app/page.tsx:210-239 | four agents with a result and none without, none of them with a confidence |
| HomePage.FormatAgentResponsesForBanner | squadgpt-frontend/src/app/page.tsx:242-251 | four entries with a result and none without |
| HomePage.BannerMatchesDebate | squadgpt-frontend/src/app/page.tsx:210-251 | the banner and the debate panel list the same agents in the same order with the same texts, which are user stories, PRD, architecture and tasks in that order |
| HomePage.DebateImpliesEditor | squadgpt-frontend/src/app/page.tsx:447-461 | whenever the debate panel shows, the editor shows too and the debate panel's summarise button is enabled |
| HomePage.Home.constructor | squadgpt-frontend/src/app/page.tsx:30-41 | empty idea, nothing in flight, no notice, no result and every agent idle |
| HomePage.Home.HandleInputChange | squadgpt-frontend/src/app/page.tsx:43-49 | the idea becomes the typed text |
| HomePage.Home.BeginSubmit | squadgpt-frontend/src/app/page.tsx:65-102 | an empty idea or a request in flight sends nothing and changes nothing; otherwise the flag rises, the notice and result clear, every agent goes idle, and the request carries the idea, the stage and the document context |
| HomePage.Home.FinishSubmit | squadgpt-frontend/src/app/page.tsx:104-147 | the flag falls in every outcome; success shows the result, clears the idea and completes every agent; a rejection or a network error shows its notice, keeps the idea and puts every agent in error |
| HomePage.Home.HandleSubmit | squadgpt-frontend/src/app/page.tsx:65-148 | a request is sent exactly when the idea is non-empty; after it the result shows exactly when the request succeeded, and then the debate panel holds four agents |
| StartPRDPage.FormData.With | squadgpt-frontend/src/app/start-prd/page.tsx:73-76 | the named field takes the new value and every other field keeps its value |
| StartPRDPage.FindLabel | squadgpt-frontend/src/app/start-prd/page.tsx:125 | no label exactly when no option has the value; otherwise the first match's label |
| StartPRDPage.FindFirst | squadgpt-frontend/src/app/start-prd/page.tsx:125 | an option whose value no earlier option shares is the one found |
| StartPRDPage.PersonaValuesDistinct | squadgpt-frontend/src/app/start-prd/page.tsx:7-17 | the persona values are pairwise distinct |
| StartPRDPage.PersonaLabelsFound | squadgpt-frontend/src/app/start-prd/page.tsx:7-17 | every listed persona value finds its own label |
| StartPRDPage.LearningsContentShape | squadgpt-frontend/src/app/start-prd/page.tsx:123-126 | the learnings begin with the signals under their heading; they are exactly that without a persona, and with a listed persona they end with '\n\nTarget Persona: ' and its label |
| StartPRDPage.ValidationErrors | squadgpt-frontend/src/app/start-prd/page.tsx:87-101 | an error exactly for each of title, hypothesis and signals that is blank once trimmed, never for the persona, and every message is non-empty |
| StartPRDPage.AcceptedIffFilled | squadgpt-frontend/src/app/start-prd/page.tsx:103 | the form is accepted exactly when title, hypothesis and signals are all non-blank |
| StartPRDPage.WorkspaceRoute | squadgpt-frontend/src/app/start-prd/page.tsx:130-133 | the route starts with '/workspace/' followed by the clock reading |
| StartPRDPage.StartForm.constructor | squadgpt-frontend/src/app/start-prd/page.tsx:61-68 | an empty form, no errors and nothing in flight |
| StartPRDPage.StartForm.HandleInputChange | squadgpt-frontend/src/app/start-prd/page.tsx:71-85 | only the named field changes; its error message is emptied when one shows and the other errors stay |
| StartPRDPage.StartForm.ValidateForm | squadgpt-frontend/src/app/start-prd/page.tsx:87-104 | the errors become the specified ones, and the result is true exactly when they are none, that is when the three required fields are filled |
| StartPRDPage.StartForm.HandleSubmit | squadgpt-frontend/src/app/start-prd/page.tsx:106-140 | a rejected form changes only the errors; an accepted one sets the title, writes the hypothesis and the learnings with one snapshot each, returns the workspace route and ends with nothing in flight |
| StartPRDPage.SeededSections | squadgpt-frontend/src/app/start-prd/page.tsx:120-127 | exactly the problem statement and the learnings are written, and every other section keeps its content |
| StartPRDPage.SeedDocument | squadgpt-frontend/src/app/start-prd/page.tsx:117-127 | the title is the form's title and the sections and histories are the seeded ones |
| StartPRDPage.BuildLearnings | squadgpt-frontend/src/app/start-prd/page.tsx:123-126 | the learnings built step by step are the specified learnings text |
| OnboardingTour.StepText | squadgpt-frontend/src/components/OnboardingTour.tsx:157 | the progress line starts with 'Step ' |
| OnboardingTour.StepTextInjective | squadgpt-frontend/src/components/OnboardingTour.tsx:157 | different steps have different progress lines |
| OnboardingTour.Onboarding.constructor | squadgpt-frontend/src/components/OnboardingTour.tsx:204-205 | the hook starts inactive and not completed |
| OnboardingTour.Onboarding.LoadStored | squadgpt-frontend/src/components/OnboardingTour.tsx:207-210 | completed exactly when the stored flag reads 'true' |
| OnboardingTour.Onboarding.StartOnboarding | squadgpt-frontend/src/components/OnboardingTour.tsx:212-214 | the tour becomes active |
| OnboardingTour.Onboarding.CompleteOnboarding | squadgpt-frontend/src/components/OnboardingTour.tsx:216-219 | inactive and completed |
| OnboardingTour.Onboarding.SkipOnboarding | squadgpt-frontend/src/components/OnboardingTour.tsx:221-224 | inactive and completed, as for completion |
| OnboardingTour.Tour.constructor | squadgpt-frontend/src/components/OnboardingTour.tsx:59 | the tour starts at the first step |
| OnboardingTour.Tour.CompleteTour | squadgpt-frontend/src/components/OnboardingTour.tsx:94-97 | records completion and leaves the hook inactive and completed |
| OnboardingTour.Tour.SkipTour | squadgpt-frontend/src/components/OnboardingTour.tsx:99-104 | records completion, leaves the hook inactive and completed, and the tour no longer renders |
| OnboardingTour.Tour.NextStep | squadgpt-frontend/src/components/OnboardingTour.tsx:80-86 | below the last step it moves one step on and changes nothing else; at the last step it stays and completes the tour; the step stays within 0..4 |
| OnboardingTour.Tour.PreviousStep | squadgpt-frontend/src/components/OnboardingTour.tsx:88-92 | above the first step it moves one step back; at the first step it does nothing; the step stays within 0..4 |
| OnboardingTour.Tour.ClickNextUntilDone | squadgpt-frontend/src/components/OnboardingTour.tsx:80-108 | from any step, clicking Next finishes the tour after exactly 5 - step clicks, at the last step, with completion recorded |
| AgentDebatePanel.ConfidenceBand | squadgpt-frontend/src/components/AgentDebatePanel.tsx:69-81 | 'not specified' exactly for an absent or zero confidence, high exactly from 80, medium exactly from 60 below 80, low exactly for the rest |
| AgentDebatePanel.TextAndColourFollowBand | squadgpt-frontend/src/components/AgentDebatePanel.tsx:69-81 | two confidences get the same text, and the same colour, exactly when they fall in the same band |
| AgentDebatePanel.ShownBadgeHasLevel | squadgpt-frontend/src/components/AgentDebatePanel.tsx:111-113 | a shown badge always names High, Medium or Low, never 'Not specified' |
| AgentDebatePanel.Payload | squadgpt-frontend/src/components/AgentDebatePanel.tsx:41-46 | one entry per agent, in order, with its name, role, response and confidence |
| AgentDebatePanel.PayloadIgnoresIcons | squadgpt-frontend/src/components/AgentDebatePanel.tsx:41-46 | agents that differ only in their icons give the same request |
| AgentDebatePanel.DebatePanel.constructor | squadgpt-frontend/src/components/AgentDebatePanel.tsx:20-22 | nothing in flight, no summary and no trade-offs |
| AgentDebatePanel.DebatePanel.BeginSummarize | squadgpt-frontend/src/components/AgentDebatePanel.tsx:24-48 | with no responses nothing is sent and nothing changes; otherwise the flag rises, summary and trade-offs are cleared, and the payload is sent |
| AgentDebatePanel.DebatePanel.FinishSummarize | squadgpt-frontend/src/components/AgentDebatePanel.tsx:50-66 | the flag falls in every outcome; success sets the summary, and the trade-offs only when the reply carries an array; a failure changes neither |
| AgentDebatePanel.DebatePanel.SummarizeOpinions | squadgpt-frontend/src/components/AgentDebatePanel.tsx:24-67 | with responses, a failure leaves no summary and no trade-offs on screen, and a success shows its summary and its trade-offs or none; without responses nothing changes |
| AgentSummaryCard.Bullets | squadgpt-frontend/src/components/AgentSummaryCard.tsx:18 | one bullet line per trade-off, '• ' followed by the trade-off, in order |
| AgentSummaryCard.CopyTextStartsWithSummary | squadgpt-frontend/src/components/AgentSummaryCard.tsx:17-19 | the copy text always starts with the summary, and equals it exactly when there are no trade-offs |
| AgentSummaryCard.CopyTextLines | squadgpt-frontend/src/components/AgentSummaryCard.tsx:17-18 | the first bullet line follows the heading, and one more trade-off adds exactly one new line with its bullet |
| AgentSummaryCard.SummaryCard.constructor | squadgpt-frontend/src/components/AgentSummaryCard.tsx:13 | not copied |
| AgentSummaryCard.SummaryCard.HandleCopySummary | squadgpt-frontend/src/components/AgentSummaryCard.tsx:15-27 | the text written is the copy text, and the copied flag rises only when the clipboard accepts it |
| Common.WholeMinutes | squadgpt-frontend/src/components/ProjectHeader.tsx:9 | the whole minutes elapsed, rounded down also for a negative difference (the header's and the dropdown's relative times both use it) |
| ProjectHeader.RelativeTimeCases | squadgpt-frontend/src/components/ProjectHeader.tsx:7-19 | 'just now' below one minute, 'm minutes ago' below an hour, 'h hours ago' with h = floor(m/60) between 1 and 23 below a day, and 'd days ago' with d = floor(m/1440) from a day on |
| ProjectHeader.HoursThenDays | squadgpt-frontend/src/components/ProjectHeader.tsx:14-17 | rounding down to hours and then to days is rounding down to days, and fewer than 24 hours is fewer than 1440 minutes |
| ProjectHeader.SavedJustNow | squadgpt-frontend/src/components/ProjectHeader.tsx:30-74 | the header's last-saved time, taken at render, always reads 'just now' |
| Common.OrElse | squadgpt-frontend/src/components/ProjectHeader.tsx:61 | a non-empty string is kept and the empty one replaced by the fallback; the result is empty only when both are |
| ProjectHeader.DisplayTitle | squadgpt-frontend/src/components/ProjectHeader.tsx:61 | the shown title is never empty, and a non-empty title is shown as it is |
| ProjectHeader.HandleTitleEdit | squadgpt-frontend/src/components/ProjectHeader.tsx:42-47 | a non-blank answer becomes the title, trimmed; a cancelled or blank answer leaves the title unchanged |
| ProjectHeader.ClickTourAsWritten | squadgpt-frontend/src/components/ProjectHeader.tsx:27-88 | the Tour button starts the header's own onboarding state and leaves the tour on the page exactly as it was |
| ProjectHeader.TourButtonLeavesTourHidden | squadgpt-frontend/src/components/ProjectHeader.tsx:27-88 | for a returning user on a fresh workspace, clicking Tour leaves the tour hidden |
| ProjectHeader.ClickTour | squadgpt-frontend/src/components/ProjectHeader.tsx:80-88 | with the onboarding state shared with the page, clicking Tour shows the tour |
| Backend.OrDefault | squadgpt-backend/src/index.js:445 | a missing optional string takes the default, a present one keeps its value |
| Backend.StageNamesAccepted | squadgpt-backend/src/index.js:19 | every stage name the frontend sends passes the stage check of the schemas |
| Backend.HomeRequestAccepted | squadgpt-backend/src/index.js:14-22 | the home page's request passes the idea schema exactly when the idea has 10 to 2000 characters and the context at most 5000; an idea of 1 to 9 characters is refused |
| Backend.ApiTestBodies | squadgpt-backend/__tests__/api.test.js:28-104 | the valid idea and chat bodies of the API tests pass their schemas; the empty, over-long and bad-stage bodies are refused |
| Backend.HandleError | squadgpt-backend/src/index.js:71-95 | never a success; 400 exactly for a validation failure, 429 exactly for a rate-limit error, 500 exactly for anything else |
| Backend.LiveBody | squadgpt-backend/src/index.js:24-33 | the Live panel's body carries its message and context as strings and its stage passes the stage check exactly when it names a stage |
| Backend.LiveRequestAccepted | squadgpt-backend/src/index.js:24-33 | a Live-stage request with a non-empty message passes the chat schema exactly when the message has at most 1000 characters and the context at most 5000 |
| Backend.LiveAnalysisAccepted | squadgpt-backend/src/index.js:24-33 | the Live analysis request passes the chat schema exactly when 343 plus the lengths of the title, both joined metric lists and the feedback is at most 1000 and the context at most 5000 |
| Backend.LiveFollowUpAccepted | squadgpt-backend/src/index.js:24-33 | the Live follow-up passes the chat schema exactly when 407 plus its five interpolated lengths is at most 1000 and the context at most 5000 |
| Backend.LongValidationRefused | squadgpt-backend/src/index.js:28 | a follow-up whose hypothesis validation is longer than 593 characters never passes the chat schema, so the route answers 400 |
| LiveStagePanel.FixedLengths | squadgpt-frontend/src/components/LiveStagePanel.tsx:42-113 | the fixed wording is 343 characters of the analysis prompt and 407 of the follow-up prompt |
| Backend.ErrorText | squadgpt-backend/src/index.js:466 | the error text is never empty, and a non-empty message is sent as it is |
| Backend.RunWorkflow | squadgpt-backend/src/index.js:315-370 | the calls form a chain fed by the idea and then each previous text; success exactly when all four calls are made and the last succeeds, with the four texts in order; otherwise the last call made failed and its message comes back under the workflow prefix |
| Backend.WorkflowWithReliableModel | squadgpt-backend/src/index.js:319-356 | with a model that never fails, exactly the four prompts are made in order, each fed the text the step before it returned |
| Backend.SectionPhrase | squadgpt-backend/src/index.js:378 | the phrase is at least as long as the key and holds no upper-case letter |
| Backend.TwoWordPhrase | squadgpt-backend/src/index.js:378 | a lower-case word followed by a capitalised word reads as the two words, separated by a space, all lower-case |
| Backend.ProblemStatementPhrase | squadgpt-backend/src/index.js:378 | problemStatement reads as 'problem statement' |
| Backend.SuccessMetricsPhrase | squadgpt-backend/src/index.js:378 | successMetrics reads as 'success metrics' |
| Backend.TradeOffsPhrase | squadgpt-backend/src/index.js:378 | tradeOffs reads as 'trade offs' |
| Common.SpaceCapitalsAt | squadgpt-backend/src/index.js:378 | before lower-casing, the camel-cased pair gains exactly one space before the capital |
| Common.SpaceCapitalsAppend | squadgpt-backend/src/index.js:378 | the capital spacing works character by character, so it distributes over concatenation |
| Backend.ContentText | squadgpt-backend/src/index.js:379 | a string is sent as it is and a list is joined with newlines |
| Backend.HistoryLines | squadgpt-backend/src/index.js:398 | one 'role: content' line per message, in order |
| Backend.FormatHistory | squadgpt-backend/src/index.js:397-399 | an empty conversation reads 'No previous conversation.', and a non-empty one starts with the first message's line |
| Backend.FormatHistorySnoc | squadgpt-backend/src/index.js:398 | one more message adds exactly one more line after a newline |
| Backend.ChatContext | squadgpt-backend/src/index.js:403 | the context sent is never empty, and a non-empty context is sent as it is |
| Backend.ChatStage | squadgpt-backend/src/index.js:513-518 | the stage has no default: it is absent exactly when the request leaves it out |
| Backend.OpinionShape | squadgpt-backend/src/index.js:423 | an agent's block starts with its name and role and ends with its response after ':\n', and carries the confidence tag exactly when the confidence is present and non-zero |
| Backend.FormatOpinions | squadgpt-backend/src/index.js:422-423 | one block per agent, in order |
| Backend.FormatDebateSnoc | squadgpt-backend/src/index.js:424 | one more agent adds exactly one more block after a blank line |
| Backend.SubmitIdea | squadgpt-backend/src/index.js:439-469 | a body the schema refuses gets the handler's 400 and makes no call; otherwise the workflow runs with the stage defaulted to Aperture and the context to empty, answering 200 with the four texts exactly when it succeeds and 500 with the failing call's message otherwise |
| Backend.SummarizeSection | squadgpt-backend/src/index.js:472-504 | a refused body gets 400 and no call; otherwise exactly one call with the section as a phrase and the stage defaulted, answered by 200 with its text or 500 with its message |
| Backend.Chat | squadgpt-backend/src/index.js:507-531 | a refused body gets 400 and no call; otherwise exactly one call with the stage as sent, the context defaulted and the history formatted (a missing history is empty), answered by 200 or 500 |
| Backend.SummarizeAgents | squadgpt-backend/src/index.js:534-562 | 400 with its message exactly when the responses are missing, not an array or empty, and then no call; otherwise one call with the formatted debate; a success carries only a summary |
| Common.Trim | squadgpt-frontend/src/components/ProjectHeader.tsx:44-45 | the result is no longer than the input, starts and ends with a non-space, is empty exactly when the input is blank, and an input already without surrounding white space is unchanged |
| Common.Join | squadgpt-frontend/src/components/ChatInterface.tsx:74 | joining nothing gives the empty string, one part gives that part, and the result always starts with the first part |
| Common.JoinEmptyIff | squadgpt-frontend/src/components/ChatInterface.tsx:74 | with non-empty parts, the join is empty exactly when there are no parts |
| Common.JoinSnoc | squadgpt-frontend/src/components/ChatInterface.tsx:74 | one more part adds the separator and that part at the end |
| Common.SpaceCapitals | squadgpt-frontend/src/components/VersionHistoryDropdown.tsx:92 | never shorter than the input, and an input without capitals is unchanged |
| Common.UnspaceSpaceCapitals | squadgpt-frontend/src/components/VersionHistoryDropdown.tsx:92 | removing the inserted spaces gives back the original key, so distinct keys give distinct headings |
| Common.NatToString | squadgpt-frontend/src/components/ProjectHeader.tsx:13-18 | at least one digit, only digits, and no leading zero |
| Common.ParseNatToString | squadgpt-frontend/src/components/ProjectHeader.tsx:13-18 | the decimal text of a number reads back as that number |

## Left out

- Loading and saving the version histories in `localStorage`: the store starts from its empty default and keeps its histories in memory only.
- Timers: the home page's simulated agent progress (`simulateAgentProgress`, whose delayed status changes are not modelled) and the summary card's reset of its copied flag after two seconds.
- Router navigation, DOM focus and scrolling, the clipboard API itself (its outcome is a parameter), `alert` and console logging.
- The wording of the backend's language-model prompt templates: a prompt is a datatype holding the template's variables, and the model is a parameter.
- The Fastify plugins (helmet, CORS, rate limiting), the health route, `listen` and the logger; the rate limiter appears only as the 429 case of the error handler.
- The JSON schema validator's type coercion and JSON values that are not strings: such a field is `NonString` and is refused.
- The `data` property that the API test of a successful idea submission expects: the route returns the four texts at the top level, and the model follows the route.
- The chat route's missing stage: the template renders it as 'undefined'; the model passes `None` and does not model the template text.
- The summarize route's array branch for `content`: the route's schema admits only strings, so `ContentText` is reached only with text.
- The agents route never returns trade-offs, so the debate panel's trade-off branch is reached only by other replies.
- Confidences that are NaN or not whole numbers: confidences are integers.
- Unicode case mapping and UTF-16 lengths: letters are mapped in ASCII and lengths count code points.
- Floating-point scores and fractions of the stage recommender: they are real numbers.
- `Date.now()` and `Math.random()` in version ids and workspace routes: they are parameters.
- `WorkspaceGuidance`, `HelpTooltip`, the layout, the Tailwind configuration, `useApi` and the logger utility are not part of this model.
- OnboardingTour.IsFirstStep and OnboardingTour.IsLastStep are predicates used by the tour's buttons and carry no contract of their own.
- HomePage.Home.BeginSubmit: builds its context with the chat panel's builder; HomePage.PageContextMatchesChat shows that the page's own builder gives the same text.
- OnboardingTour.StepText: states only the 'Step ' prefix; StepTextInjective states that steps are told apart.
- HomePage.Candidates: states only that there are five candidates; what they join to is stated by HomePage.PageContextMatchesChat.
- HomePage.Home.Consistent: its agent-status clauses describe the page only at the moment a reply is handled; the delayed status changes of `simulateAgentProgress` (app/page.tsx:50-62) can still set a status to working or completed later, and they are not modelled.
- Rendering a list section that a summary turned into a string: the editor's `.map` calls on it would throw; the model records that the document is then no longer well typed (`PRDEditorPanel.EditorPanel.FinishSummarize`), and the members that render list sections require a well-typed document.
- `addVersion` reads `Date.now()` twice, once for the timestamp and once for the id; the model takes one reading `now` for both, so it does not capture a clock tick between the two reads.

## Findings

| source | as written | input that shows it | evidently intended | confidence | as-written member | corrected member |
|---|---|---|---|---|---|---|
| squadgpt-frontend/src/components/VersionHistoryDropdown.tsx:136 | the footer numbers the selected snapshot `findIndex + 1`, counting from the newest | two snapshots; select the newest, listed as 'Version 2' | the footer uses the list's numbering, `n - index` | not executed | VersionHistoryDropdown.FooterDisagreesWithList | VersionHistoryDropdown.FooterMatchesList |
| squadgpt-frontend/src/components/ProjectHeader.tsx:27-88 | the header calls `useOnboarding` itself, so its Tour button starts the header's own state while the workspace page's tour reads another | a returning user clicks Tour on a freshly opened workspace | the button shows the page's tour, with the onboarding state shared | not executed | ProjectHeader.TourButtonLeavesTourHidden | ProjectHeader.ClickTour |
| squadgpt-frontend/src/components/StageRecommendationBanner.tsx:40 | the effect depends on `agentResponses`, an array the page rebuilds on every render, and React compares dependencies by reference, so every re-render reruns the effect and clears `isDismissed` | dismiss the banner on the home page, then type one character into the idea form: the page re-renders with the same document and the banner reappears | a dismissed banner stays hidden until the document changes | not executed; medium | StageRecommendationBanner.Banner.DismissThenRerender | StageRecommendationBanner.Banner.DismissThenUnchangedRerender |
