# Punter survey core in Dafny

A model of the deterministic core of Punter's survey back end, with proofs about it. Punter is a
service that drafts event surveys with a language model. The core covers five areas:

- **Plan-survey pipeline:**
  - context analysis into focus areas;
  - the generate / validate / refine call sequence with its fallbacks;
  - the question normaliser: type and option coercion, the Likert scale, the demographic filters, orders;
  - the 25-question fallback set.
- **Pre-event rules and catalogues:**
  - the forbidden-pattern engine and the prompt block that renders it;
  - the question bank and its helpers;
  - the goal-strategy catalogue, its three-pass strategy selection and the prompt block;
  - the universal (demographic) questions;
  - the panorama goal templates.
- **Event extraction:**
  - URL normalisation;
  - the scraper loop;
  - the model-backed scraper's HTML cleaning and reply decoding;
  - the multi-source merge (description, venue, lineup, pricing tiers, VIP information).
- **Pulse (Instagram DM) surveys:**
  - the question generator and its 3-to-7 clamp;
  - the conversation state machine;
  - answer validation;
  - post-URL parsing.
- **Shared helpers:** the analytics cache (key, get, set, clear), slug generation and CSV header formatting.

Every operation is a pure function over immutable data.

- **Model replies:** a reply is an input value that the caller chooses freely. Decoding is folded into
  the reply's variants: decoded object, decoded list, unusable, call raised, or empty content.
- **Stored state:** the database reads and writes become explicit state values. A pulse conversation,
  for example, is a record and the list of answers saved so far.
- **Clock:** the analytics cache takes the current time as an integer number of seconds.
- **Exceptions:** a Python exception the caller catches is modelled as the branch it leads to. An
  exception that escapes is modelled as `None`.

Modules follow the source files. The shared modules are:

- `Wrappers`: `Option` and `Result`.
- `Text`: ASCII versions of `str.strip`, `lower`, `split`, `join`, `replace`, `title` and `repr`.
- `Collections`:
  - the first-occurrence de-duplication loop;
  - a stable sort by integer key;
  - `Filter` and `Map` with their algebra.
- `SurveyTypes`: the raw and normalised question records.
- `EventData`: `ExtractedEventData` and its dictionary form.

Some behaviours of the code that shape the model:

- The normaliser keeps each question's input position as its `order`. The forbidden-pattern list
  plays no part in normalisation.
- The multi-source merge de-duplicates artists, tiers and perks by exact comparison of their
  lower-cased, stripped names.
- The merge joins the distinct venues with " / ".
- The merge sorts the lineup by source rank and renumbers it 1..n.
- The merge keeps pricing tiers in source order.
- `extract_from_urls` fetches each URL as given, in order, and keeps no cache between calls.

## Model

| member | source | states |
|---|---|---|
| CacheManager.Get | backend/app/services/analytics/cache_manager.py:18-38 | Data comes back exactly when the key is present, not yet expired (expiry is a strict "later than") and stored for the same response count. A miss on a stale entry deletes that entry and nothing else. |
| CacheManager.Set | backend/app/services/analytics/cache_manager.py:40-49 | The entry is stored under its key, expiring `ttl` seconds after now. Every other key keeps its presence and value. |
| CacheManager.GetAfterSet | backend/app/services/analytics/cache_manager.py:18-49 | Reading what was just written returns it until the time-to-live has elapsed, and nothing after. |
| CacheManager.GetMissing | backend/app/services/analytics/cache_manager.py:20-23 | A key that is not cached reads as nothing and leaves the cache unchanged. |
| CacheManager.Clear | backend/app/services/analytics/cache_manager.py:51-61 | Exactly the keys whose first ':'-segment is the panorama (and second, when given, the type) are removed. The others keep their values. |
| CacheManager.KeyRoundTrip | backend/app/services/analytics/cache_manager.py:14-16 | A key built from colon-free ids splits on ':' back into panorama id, cache type and count. |
| CacheManager.ClearAgreesWithKeys | backend/app/services/analytics/cache_manager.py:51-61 | With colon-free ids, `clear` deletes an entry written by `set` exactly when its panorama (and type, if given) matches. |
| CacheManager.ClearOverreachesWithColon | backend/app/services/analytics/cache_manager.py:55-58 | A panorama id containing ':' lets `clear("a")` delete the entries of panorama "a:b". |
| EventData.DefaultsHaveNoData | backend/app/services/scrapers/base.py:17-44 | A record built with every argument omitted gets the empty defaults, and `has_data` is false for it. |
| EventData.ToDict | backend/app/services/scrapers/base.py:26-34 | The dictionary has exactly the five API keys. |
| EventData.DictRoundTrip | backend/app/services/scrapers/base.py:26-34 | `to_dict` loses nothing: the dictionary reads back to the same record. |
| LlmScraper.CollapseWhitespace | backend/app/services/scrapers/llm_scraper.py:94-95 | Collapsing never lengthens the text, empties only the empty text, and turns a leading whitespace character into a space. |
| LlmScraper.CollapseSingleSpaced | backend/app/services/scrapers/llm_scraper.py:94-95 | After collapsing, whitespace occurs only as single spaces. |
| LlmScraper.CollapseKeepsVisible | backend/app/services/scrapers/llm_scraper.py:94-95 | Collapsing keeps every non-whitespace character, in order. |
| LlmScraper.CollapseFixesSingleSpaced | backend/app/services/scrapers/llm_scraper.py:94-95 | A text that is already single-spaced is left unchanged. |
| LlmScraper.CollapseIdempotent | backend/app/services/scrapers/llm_scraper.py:94-95 | Collapsing twice is the same as collapsing once. |
| LlmScraper.Truncate | backend/app/services/scrapers/llm_scraper.py:97-99 | A text within the limit is kept. A longer text keeps exactly its first `max_length` characters, followed by "...". |
| LlmScraper.CleanHtml | backend/app/services/scrapers/llm_scraper.py:76-101 | The cleaned page is always single-spaced. It is the whitespace-collapsed page when that fits in 50000 characters, and otherwise its first 50000 characters followed by "...". A page within the limit keeps all its visible characters. |
| LlmScraper.ExtractWithLlm | backend/app/services/scrapers/llm_scraper.py:140-173 | Any failed, empty or undecodable reply gives the empty record. A decoded reply supplies description and venue. A missing lineup or tier list becomes empty, and missing VIP information becomes disabled VIP information. |
| LlmScraper.ExtractRoundTrip | backend/app/services/scrapers/llm_scraper.py:160-166 | A reply that carries every field of a record extracts back to exactly that record. |
| LlmScraper.MissingListsAreEmpty | backend/app/services/scrapers/llm_scraper.py:163-164 | A reply without `lineup` or `pricing_tiers` extracts the same record as one with those lists empty. |
| LlmScraper.Extract | backend/app/services/scrapers/llm_scraper.py:27-52 | A failed fetch gives the empty record. Otherwise the model is asked about the cleaned page, and its reply is decoded. |
| LlmScraper.ExtractDataNeedsDecodedReply | backend/app/services/scrapers/llm_scraper.py:27-52 | A record with data can only come from a successful fetch and a decoded model reply. |
| EventScraper.NormalizeUrl | backend/app/services/event_scraper.py:197-213 | The result is stripped, has an http(s) scheme and ends with the stripped input. A URL that already has a scheme is only stripped. Any other URL is the stripped input behind `https://`. |
| EventScraper.NormalizeUrlIdempotent | backend/app/services/event_scraper.py:197-213 | Normalising a URL twice is normalising it once. |
| EventScraper.TryScrapers | backend/app/services/event_scraper.py:61-75 | The result is the record of the first scraper that accepts the URL and yields data, or the empty record. If any scraper yields data, so does the result. |
| EventScraper.DefaultExtractFromUrl | backend/app/services/event_scraper.py:41-75 | With the default scraper list, a URL gives the model-backed scraper's record when it has data, else the empty record. |
| EventScraper.Longest | backend/app/services/event_scraper.py:131 | `max(..., key=len)` picks an entry at least as long as every other, and the first of the longest. |
| EventScraper.MergeVenue | backend/app/services/event_scraper.py:133-138 | There is a merged venue exactly when some source has a non-empty venue. It is the distinct venues, in first-seen order, joined with " / ". |
| EventScraper.SameVenueKept | backend/app/services/event_scraper.py:133-138 | When every source that names a venue names the same one, the merged venue is that venue unchanged. |
| EventScraper.MergeVip | backend/app/services/event_scraper.py:168-193 | VIP is enabled exactly when some source enables it. A disabled result is the empty VIP record. An enabled result holds the VIP tiers and perks of the sources, first occurrence of each case-insensitive name kept, in source order. A name is present exactly when VIP is enabled and some source lists it. |
| EventScraper.Merge | backend/app/services/event_scraper.py:116-195 | There is a description and a venue exactly when some source has one; the venue is the distinct venues joined with " / ". Lineup ranks are 1..n. Tiers are the sources' tiers with the first of each name kept. VIP is enabled exactly when any source enables it, and then holds the first occurrence of every VIP tier and perk; otherwise it is the empty VIP record. |
| EventScraper.MergedDescriptionIsLongest | backend/app/services/event_scraper.py:128-131 | The merged description is a longest non-empty description, the first one among equals. |
| EventScraper.Renumber | backend/app/services/event_scraper.py:152-154 | Renumbering keeps every artist's name and sets the ranks to consecutive numbers. |
| EventScraper.RenumberFixed | backend/app/services/event_scraper.py:152-154 | A lineup already ranked consecutively is left unchanged by renumbering. |
| EventScraper.RenumberKeys | backend/app/services/event_scraper.py:152-154 | Renumbering keeps the set of artist name keys, and their distinctness. |
| EventScraper.MergeLineup | backend/app/services/event_scraper.py:140-155 | The merged lineup is ranked 1, 2, ..., n. |
| EventScraper.MergedLineupKeys | backend/app/services/event_scraper.py:140-155 | The merged lineup has one artist per non-empty name key, and every such key of the sources. |
| EventScraper.MergedLineupOrder | backend/app/services/event_scraper.py:140-151 | Before renumbering, the lineup is sorted by source rank (999 when missing). Artists of equal rank keep their first-seen order. |
| EventScraper.DisabledVipIgnored | backend/app/services/event_scraper.py:168-193 | A source whose VIP flag is off has no influence on the merged VIP information. |
| EventScraper.MergeIdempotent | backend/app/services/event_scraper.py:116-195 | Merging a merged record on its own gives it back unchanged. |
| EventScraper.MergeRenumbersSingleRecord | backend/app/services/event_scraper.py:150-155 | Merging one record is not the identity: a headliner at source rank 5 comes back at rank 1. |
| EventScraper.SingleArtistMerge | backend/app/services/event_scraper.py:140-155 | A record with one named artist merges to that artist at rank 1. |
| EventScraper.Gathered | backend/app/services/event_scraper.py:96-108 | The gathered records are the per-URL records, in URL order, filtered to those that have data. |
| EventScraper.GatheredMembers | backend/app/services/event_scraper.py:101-105 | A URL's record is gathered exactly when it has data. Every gathered record comes from some URL. |
| EventScraper.GatheredConcat | backend/app/services/event_scraper.py:101-105 | Gathering two URL lists one after the other gathers their concatenation. |
| EventScraper.ExtractFromUrls | backend/app/services/event_scraper.py:77-114 | No URL, or no URL with data, gives the empty record. Otherwise the result is the merge of the per-URL records filtered to those with data, in URL order. |
| Collections.DedupBy | backend/app/services/event_scraper.py:141-148 | The kept elements have pairwise different keys. Their keys are exactly the non-empty keys of the input. Each kept element comes from the input. |
| Collections.DedupIsFirstOccurrences | backend/app/services/event_scraper.py:141-148 | The `seen`-set loop keeps exactly the first occurrence of each non-empty key, in input order. |
| Collections.DedupDistinct | backend/app/services/event_scraper.py:141-148 | A list whose keys are already non-empty and distinct is left unchanged. |
| Collections.StableSort | backend/app/services/event_scraper.py:151 | The result is sorted by the key and has the input's length. |
| Collections.StableSortPermutes | backend/app/services/event_scraper.py:151 | Sorting only reorders: the result is a permutation of the input. |
| Collections.StableSortIsStable | backend/app/services/event_scraper.py:151 | Elements of equal key keep their relative order (`list.sort` is stable). |
| Collections.StableSortSorted | backend/app/services/event_scraper.py:151 | Sorting an already sorted list changes nothing. |
| LlmService.SplitOnDelimiters | backend/app/services/llm_service.py:107 | The split on `[,;]\|\n\|[-•*]` gives one more piece than there are delimiters. No piece holds a delimiter, and the pieces rejoined are the text without its delimiters. |
| LlmService.AnalyzeContext | backend/app/services/llm_service.py:93-142 | Focus areas are stripped, longer than 3 characters, free of delimiters and case-insensitively distinct. Each is an item of the goals or the objectives. Event name, event type, additional context, audience and timing pass through with "" defaults. |
| LlmService.EveryItemCovered | backend/app/services/llm_service.py:99-130 | No candidate item is lost: every goal or objective item is represented among the focus areas, up to letter case. |
| LlmService.FocusAreasAreFirstOccurrences | backend/app/services/llm_service.py:123-130 | The focus areas are the first case-insensitive occurrences of the goal items followed by the objective items. |
| LlmService.FlattenConcat | backend/app/services/llm_service.py:199-205 | Flattening distributes over concatenation of section lists. |
| LlmService.ParseResponse | backend/app/services/llm_service.py:298-353 | A sections object is returned as it is. A legacy `questions` object or a top-level list becomes one "Survey Questions" section. Anything unusable gives no sections. |
| LlmService.LegacyRoundTrip | backend/app/services/llm_service.py:307-322 | Wrapping a legacy question list into its section and flattening gives back the same list. |
| LlmService.CoerceType | backend/app/services/llm_service.py:391-408 | The result is always well typed. An unknown type becomes text. An option type without options becomes text. Likert gets the canonical scale. Single- and multi-select keep their list. Text types drop options. |
| LlmService.CoerceTypeIdempotent | backend/app/services/llm_service.py:391-408 | Coercing an already well-typed pair changes nothing. |
| LlmService.Coerce | backend/app/services/llm_service.py:370-416 | A non-string text raises. A candidate is kept exactly when it survives the emptiness, universal-duplicate and keyword filters. A kept question is well formed, carries its input index as order, and has the stripped text. |
| LlmService.Collect | backend/app/services/llm_service.py:370-418 | The loop fails exactly when some position raises. Otherwise every collected question is the kept verdict of some position. |
| LlmService.CollectOrders | backend/app/services/llm_service.py:370-418 | With positions as orders, the collected orders increase strictly and point back at their own verdicts. |
| LlmService.Normalise | backend/app/services/llm_service.py:355-418 | It fails exactly when some candidate's text is not a string. Otherwise the result is no longer than the input, orders strictly increase, and each question is the kept verdict of its position. |
| LlmService.NormaliseKeepsExactlySurvivors | backend/app/services/llm_service.py:355-418 | A candidate appears in the output exactly when it survives the filters. Every output question is well formed with the candidate's stripped text. |
| LlmService.NormaliseIdempotent | backend/app/services/llm_service.py:355-418 | Normalising an already normalised list drops nothing, changes no field, and only renumbers the orders to 0..n-1. |
| LlmService.KeywordFilterIsSubstring | backend/app/services/llm_service.py:365-389 | The demographic keyword test is a plain substring test: "which stage" is dropped because it contains "age". |
| LlmService.FallbackQuestions | backend/app/services/llm_service.py:420-607 | There are 25 fallback questions with orders 0..24. The first two name the event ("this event" by default). |
| LlmService.GenerateQuestionsWithLlm | backend/app/services/llm_service.py:170-197 | A failed or empty call gives no sections. Otherwise the sections are those of the parsed reply. |
| LlmService.FailedGenerationHasNoSections | backend/app/services/llm_service.py:190-197 | A raised, empty or unparseable first call has no sections. |
| LlmService.ValidateResponse | backend/app/services/llm_service.py:207-247 | Validation fails open: a failed or empty call reads as `validation_passed: True`. |
| LlmService.RefineQuestions | backend/app/services/llm_service.py:249-296 | Refinement returns the refined sections when there are any, else the original ones. It never loses all the sections. |
| LlmService.RunPipeline | backend/app/services/llm_service.py:53-91 | The fallback path returns the 25 static questions. The normalised path returns well-formed questions with strictly increasing orders. |
| LlmService.PipelineOutcome | backend/app/services/llm_service.py:53-91 | The fallback is taken exactly when the first call has no sections, the validation reply is not an object, or a question of the final sections raises while being normalised. Otherwise the result is the normalised final sections: the refined ones when validation did not pass, else the first call's. |
| LlmService.NoSectionsFallsBack | backend/app/services/llm_service.py:64-66 | A first call without sections returns the 25-question fallback. |
| LlmService.RefinementIffNotPassed | backend/app/services/llm_service.py:71-81 | Once there are sections and a usable verdict, refinement runs exactly when `validation_passed` is missing or falsy. |
| LlmService.FailedValidationSkipsRefinement | backend/app/services/llm_service.py:240-247 | A failed or empty validation call never triggers refinement. Once there are sections, the refinement reply then makes no difference. |
| LlmService.EmptyRefinementKeepsOriginal | backend/app/services/llm_service.py:288-293 | A refinement with no sections keeps the first call's questions, normalised. |
| PulseQuestionGenerator.PulseType | backend/app/services/pulse_question_generator.py:120-131 | The result is free text without options, or single-select with a non-empty list. Single-select survives exactly when it was asked for with a non-empty list, and keeps that list. |
| PulseQuestionGenerator.PulseTypeIdempotent | backend/app/services/pulse_question_generator.py:120-131 | A pair already in Pulse shape is left alone. |
| PulseQuestionGenerator.PulseCoerce | backend/app/services/pulse_question_generator.py:112-139 | A non-string text raises. A candidate is kept exactly when its stripped text is non-empty. A kept question is Pulse-shaped, with its input index as order. |
| PulseQuestionGenerator.FallbackQuestions | backend/app/services/pulse_question_generator.py:151-177 | There are three Pulse-shaped fallback questions with orders 0..2. The first names the event. |
| PulseQuestionGenerator.Clamp | backend/app/services/pulse_question_generator.py:141-147 | The length becomes 3 when fewer, else at most 7. The first survivors are kept in place, and short lists are padded with the first fallback questions. |
| PulseQuestionGenerator.ClampShaped | backend/app/services/pulse_question_generator.py:141-147 | Clamping Pulse-shaped questions leaves only Pulse-shaped questions. |
| PulseQuestionGenerator.ValidateQuestions | backend/app/services/pulse_question_generator.py:107-149 | It fails exactly when some text is not a string. Otherwise it returns the survivors (in input order, see `SurvivorsInInputOrder`) clamped to 3 to 7 questions, all Pulse-shaped. |
| PulseQuestionGenerator.SurvivorsInInputOrder | backend/app/services/pulse_question_generator.py:112-139 | Before the clamp, the survivors are exactly the candidates with non-empty stripped text, in input order, numbered by input index. |
| PulseQuestionGenerator.GeneratePulseQuestions | backend/app/services/pulse_question_generator.py:27-105 | It always returns 3 to 7 Pulse-shaped questions. A failed, empty or question-less reply gives the fallback for the context's event name. A non-empty list gives the validated questions, or that fallback when validation fails. |
| PulseQuestionGenerator.RaisingCandidateFallsBack | backend/app/services/pulse_question_generator.py:101-105 | A non-string question text anywhere in the reply also ends in the fallback. |
| ConversationHandler.ParseRendered | backend/app/services/pulse/conversation_handler.py:222-223 | `int(str(n))` is `n` for every natural number. |
| ConversationHandler.MatchOption | backend/app/services/pulse/conversation_handler.py:232-236 | The answer selects the first option equal to it ignoring case, and nothing when no option is. |
| ConversationHandler.ValidateResponse | backend/app/services/pulse/conversation_handler.py:208-251 | A single-select answer with options is rejected exactly when, stripped, it is neither a number from 1 to the option count nor any option's text up to case; a number k selects option k. An accepted answer is one of the options, and a rejected one gets the option error. Without options any answer passes. Other answers are invalid exactly when empty after stripping. |
| ConversationHandler.NumberSelectsOption | backend/app/services/pulse/conversation_handler.py:221-228 | Replying with the number k (1..n) selects option k. |
| ConversationHandler.TextSelectsOption | backend/app/services/pulse/conversation_handler.py:232-236 | A stripped reply that is not a number and equals an option ignoring case is accepted, as an option spelt the same way up to case. |
| ConversationHandler.FormatQuestion | backend/app/services/pulse/conversation_handler.py:196-206 | The message starts with the "Question i/n" header and the text. It continues exactly when there are options to list. |
| ConversationHandler.NumberedOptions | backend/app/services/pulse/conversation_handler.py:202-203 | Option line i reads "k. option" with k counting up from the first number. |
| ConversationHandler.FormatQuestionLines | backend/app/services/pulse/conversation_handler.py:196-206 | Split into lines, the message is the header and the text. A single-select question with options adds a blank line, "Options:", one numbered line per option from 1, a blank line and the reply hint. |
| ConversationHandler.GetOrCreateConversation | backend/app/services/pulse/conversation_handler.py:61-88 | A stored conversation is returned as it is. Otherwise a new invited conversation is created at question 0 with a fresh submission id. |
| ConversationHandler.StartSurvey | backend/app/services/pulse/conversation_handler.py:90-121 | No questions gives an error and no change. Otherwise the status becomes in progress at question 0, and the first question is sent. |
| ConversationHandler.ProcessResponse | backend/app/services/pulse/conversation_handler.py:123-194 | The handler raises exactly when the stored index is past the question list. |
| ConversationHandler.HandleIncomingMessage | backend/app/services/pulse/conversation_handler.py:15-59 | An invited user is reminded unless the reply is an acceptance word, which starts the survey. An in-progress reply is processed. Completed or other statuses are ignored. |
| ConversationHandler.HandlePreserves | backend/app/services/pulse/conversation_handler.py:15-194 | From a consistent state, no message raises. Each message keeps an in-progress conversation's index inside the question list and never moves the status back. It saves at most one answer, appended after the earlier ones, and leaves the identifying fields alone. |
| ConversationHandler.InvalidAnswerResends | backend/app/services/pulse/conversation_handler.py:143-153 | An invalid answer re-sends the same question and changes nothing. |
| ConversationHandler.ValidAnswerAdvances | backend/app/services/pulse/conversation_handler.py:155-194 | A valid answer is saved once, against the current question, with the checked text. The survey then moves to the next question, or completes after the last. |
| ConversationHandler.AnsweringAllCompletes | backend/app/services/pulse/conversation_handler.py:123-194 | Answering every remaining question validly completes the survey. Exactly one answer per remaining question is added. |
| PreEventConfig.GetSurveyConstraints | backend/app/services/pre_event_config.py:126-137 | The constraints carry the configured bounds 10 and 25, minimum below maximum. |
| PreEventConfig.BucketCountsDecrease | backend/app/services/pre_event_config.py:84-91 | Must-have asks for more questions per goal than interested, which asks for more than not-important (0). The must-have cap fits within the maximum survey length. |
| PreEventConfig.AnyMatchIffForbidden | backend/app/services/pre_event_config.py:109-113 | The early-exit loop returns true exactly when some pattern occurs in the text, ignoring case. |
| PreEventConfig.IsForbiddenQuestion | backend/app/services/pre_event_config.py:99-113 | A question is forbidden exactly when it contains a forbidden pattern, ignoring case. |
| PreEventConfig.ValidateWith | backend/app/services/pre_event_config.py:155-182 | Invalid exactly when some pattern matches. An invalid result reports the fixed reason and the first matching pattern. A valid one reports neither. |
| PreEventConfig.ValidateQuestionForPreEvent | backend/app/services/pre_event_config.py:155-182 | Invalid exactly when the text contains a forbidden pattern. A valid result carries no reason and no pattern. |
| PreEventConfig.ValidateAgreesWithIsForbidden | backend/app/services/pre_event_config.py:99-182 | The validator rejects exactly the texts the forbidden-question test flags. |
| PreEventConfig.ContainingPatternIsForbidden | backend/app/services/pre_event_config.py:26-53 | A text that literally contains a listed lower-case pattern is forbidden, whatever surrounds it. |
| PreEventConfig.ConfigPromptLines | backend/app/services/pre_event_config.py:185-211 | The block is the three header lines, then the first ten patterns as "Contain" lines, then the categories and the bounds. |
| QuestionBank.CategoryListed | backend/app/services/question_bank.py:254-265 | Every category a bank entry carries is listed by `get_categories`. |
| QuestionBank.CategoriesMatchConfig | backend/app/services/question_bank.py:254-265 | The bank's categories are exactly the pre-event configuration's allowed categories. |
| QuestionBank.RenderIsReplace | backend/app/services/question_bank.py:280-282 | Filling a template is the textual replacement of every `{event_name}` in the stored template string. |
| QuestionBank.IdFromNameInverts | backend/app/services/question_bank.py:37-217 | Looking an entry up by its id string gives back that entry. |
| QuestionBank.IdNamesUnique | backend/app/services/question_bank.py:37-217 | No two bank entries share an id string. |
| QuestionBank.BankOrderComplete | backend/app/services/question_bank.py:37-217 | Every entry appears in the bank, and exactly once. |
| QuestionBank.EntryWellTyped | backend/app/services/question_bank.py:37-217 | Free-text entries have no options, and every other entry a non-empty list. Every type is a survey type. |
| QuestionBank.GetRequiredQuestions | backend/app/services/question_bank.py:243-251 | Every returned entry is flagged required. |
| QuestionBank.RequiredAreTheTwo | backend/app/services/question_bank.py:41-56 | The required entries are exactly the first two of the bank, the accessibility and catch-all questions, in that order. |
| QuestionBank.GetQuestionsByCategory | backend/app/services/question_bank.py:229-240 | Every returned entry has the category, and every bank entry of that category is returned. |
| QuestionBank.ByCategoryKeepsOrder | backend/app/services/question_bank.py:240 | The category filter keeps bank order: filtering a concatenation filters each part. |
| QuestionBank.UnknownCategoryIsEmpty | backend/app/services/question_bank.py:229-240 | A category no entry carries selects nothing. |
| QuestionBank.FormatQuestion | backend/app/services/question_bank.py:268-283 | Every field is kept, and the text is the template with `{event_name}` replaced. |
| QuestionBank.PromptLine | backend/app/services/question_bank.py:298-303 | Each line starts with `- [category] `. It has an options suffix exactly when the entry has non-empty options. |
| QuestionBank.PromptHasOneLinePerQuestion | backend/app/services/question_bank.py:286-304 | When no line holds a newline, the prompt block splits back into one line per question, in order. |
| QuestionStrategies.Rank | backend/app/services/question_strategies.py:481-500 | Each strategy is picked in one of three passes: data available, no data needed, data missing. |
| QuestionStrategies.SliceTo | backend/app/services/question_strategies.py:502 | `a[:k]` is a prefix of `a`, of length `min(k, len(a))` for `k >= 0`. |
| QuestionStrategies.Select | backend/app/services/question_strategies.py:478-502 | Every selected strategy comes from the goal's list. |
| QuestionStrategies.RankedMembers | backend/app/services/question_strategies.py:481-500 | Each pass group holds exactly the strategies of its rank. |
| QuestionStrategies.SecondPassAppends | backend/app/services/question_strategies.py:487-491 | With distinct strategies, the second pass appends exactly the data-free ones, in catalogue order. |
| QuestionStrategies.FillTakes | backend/app/services/question_strategies.py:493-500 | The third pass appends the missing-data strategies in order, stopping at the cap. |
| QuestionStrategies.FirstTwoPasses | backend/app/services/question_strategies.py:481-491 | The first two passes pick the available-data strategies, then the data-free ones. |
| QuestionStrategies.ChosenUnlessMissing | backend/app/services/question_strategies.py:481-491 | After two passes, a strategy is chosen exactly when its data is not missing. |
| QuestionStrategies.SelectIsRankedPrefix | backend/app/services/question_strategies.py:455-502 | The selection is the reference order (available, then data-free, then missing, each in catalogue order), cut at the cap. |
| QuestionStrategies.SelectLengthAndDistinct | backend/app/services/question_strategies.py:455-502 | The selection has `min(cap, n)` distinct strategies. |
| QuestionStrategies.SelectOrdersByPass | backend/app/services/question_strategies.py:455-502 | Along the selection the pass never goes back, so missing-data strategies come last. |
| QuestionStrategies.SelectCoversAll | backend/app/services/question_strategies.py:495-502 | A cap covering the whole list selects every strategy. |
| QuestionStrategies.GoalNamesUnique | backend/app/services/question_strategies.py:79-429 | The goal identifiers name the goals one to one. |
| QuestionStrategies.GoalKeysDistinct | backend/app/services/question_strategies.py:79-429 | Every goal has four distinct strategies. |
| QuestionStrategies.GetStrategiesForGoal | backend/app/services/question_strategies.py:436-447 | Unknown goals give nothing, and known goals their four strategies. |
| QuestionStrategies.GetAllGoalIds | backend/app/services/question_strategies.py:450-452 | There are seven goal ids, each naming a known goal. |
| QuestionStrategies.SelectApplicableStrategies | backend/app/services/question_strategies.py:455-502 | An unknown goal selects nothing. A known goal selects only its own strategies. |
| QuestionStrategies.SelectionShape | backend/app/services/question_strategies.py:455-502 | A known goal with cap `c >= 0` selects `min(c, 4)` distinct strategies. |
| QuestionStrategies.DefaultCapSelectsAll | backend/app/services/question_strategies.py:458-502 | With the default cap of four, every strategy of the goal is selected. |
| QuestionStrategies.StrategyLines | backend/app/services/question_strategies.py:541-548 | A strategy renders as purpose, template, type, the options line only for non-empty options, and a blank line. Only the first line is numbered. |
| QuestionStrategies.NumberedPurposes | backend/app/services/question_strategies.py:541-548 | The numbered lines of a block are the strategies' purpose lines, numbered consecutively. |
| QuestionStrategies.GoalBlockPurposes | backend/app/services/question_strategies.py:536-548 | A goal's block lists the first `min(n, k)` of its strategies, numbered from one. |
| QuestionStrategies.GoalsSection | backend/app/services/question_strategies.py:530-548 | A bucket's heading appears exactly when the bucket has goals. |
| QuestionStrategies.PreviewLinesQuiet | backend/app/services/question_strategies.py:575-586 | No preview line can be mistaken for a bucket heading. |
| QuestionStrategies.HeadingsShownIff | backend/app/services/question_strategies.py:505-588 | In the whole prompt, each bucket heading appears exactly when its bucket has goals. |
| QuestionStrategies.LineupEllipsisIff | backend/app/services/question_strategies.py:575-576 | The lineup line ends in "..." exactly when more than five artists are known. |
| QuestionStrategies.VipEllipsisIff | backend/app/services/question_strategies.py:581-582 | The VIP line ends in "..." exactly when more than three perks are known, for perks that do not themselves end in a full stop. |
| UniversalQuestions.CatalogueOrders | backend/app/services/universal_questions.py:3-53 | The catalogue holds eight questions with orders -10..-3, in catalogue order. |
| UniversalQuestions.Texts | backend/app/services/universal_questions.py:56-58 | The eight texts come in catalogue order. |
| UniversalQuestions.OptionalRowsMember | backend/app/services/universal_questions.py:81-88 | A key of the optional list gets a row exactly when its config flag is true. |
| UniversalQuestions.OptionalRowsIncreasing | backend/app/services/universal_questions.py:81-88 | Rows taken from keys of increasing order have increasing order. |
| UniversalQuestions.GetUniversalQuestions | backend/app/services/universal_questions.py:61-90 | The result is first name, last name and email, then the enabled optional entries. There are 3 to 8 rows, all tagged with the panorama and universal, with strictly increasing negative orders. |
| UniversalQuestions.OptionalIncludedIffEnabled | backend/app/services/universal_questions.py:81-88 | An optional entry is returned exactly when its config flag is true. |
| PanoramaGoals.TypeNamesUnique | backend/app/services/panorama_goals.py:11-41 | The type names are unambiguous. |
| PanoramaGoals.GetGoalsForType | backend/app/services/panorama_goals.py:6-41 | An unknown type gives no goals, and a known type seven. |
| PanoramaGoals.GoalsOfType | backend/app/services/panorama_goals.py:11-41 | A known type's name selects that type's templates. |
| PanoramaGoals.GoalIdsNumbered | backend/app/services/panorama_goals.py:11-39 | A known type's goal ids are "goal-1" to "goal-7", in order. |
| PanoramaGoals.GoalIdsDistinct | backend/app/services/panorama_goals.py:11-39 | No two goals of one type share an id. |
| PanoramaGoals.GetTypeDescription | backend/app/services/panorama_goals.py:44-70 | An unknown type is described by its own name with empty texts. A known type has non-empty description and outcomes. |
| PanoramaGoals.DisplayNameCapitalised | backend/app/services/panorama_goals.py:48-64 | The display name is the type name with its first letter capitalised. |
| PanoramaGoals.KnownTypeNamedAfterItself | backend/app/services/panorama_goals.py:44-64 | A known type is displayed under its own name, capitalised. |
| Panoramas.GenerateSlug | backend/app/api/panoramas.py:264-273 | A slug is lower-case word characters that neither start nor end with '_'. |
| Panoramas.SlugFixesSlugs | backend/app/api/panoramas.py:264-273 | A slug is its own slug. |
| Panoramas.SlugIdempotent | backend/app/api/panoramas.py:264-273 | Slugging twice is slugging once. |
| Panoramas.Collapse | backend/app/api/panoramas.py:270 | No separator survives collapsing, and cleaned text becomes slug characters. |
| Panoramas.WordsCoverText | backend/app/api/panoramas.py:305 | `split()` loses only whitespace: the words put back together are the text without its whitespace. |
| Panoramas.Capitalize | backend/app/api/panoramas.py:305 | `capitalize` keeps the length and the letters up to case. The first character is not lower-case and the rest are not upper-case. |
| Panoramas.CapitalizeAllKeepsLetters | backend/app/api/panoramas.py:305 | Capitalising every word keeps the words' letters up to case. |
| Panoramas.HeaderWordsCapitalised | backend/app/api/panoramas.py:298-305 | Every header word is capitalised. |
| Panoramas.FormatQuestionHeader | backend/app/api/panoramas.py:298-305 | The header has no underscore and no surrounding whitespace. |
| Panoramas.HeaderWordsFromText | backend/app/api/panoramas.py:301-305 | Up to case, the header's words spell the question text, stripped, without trailing `?` and with underscores as spaces, minus its whitespace. |
| Panoramas.QuestionMarkDropped | backend/app/api/panoramas.py:301 | For stripped text, a trailing `?` does not change the header. |
| Panoramas.HeaderSplitsIntoWords | backend/app/api/panoramas.py:298-305 | The header's words are separated by single spaces: splitting it on ' ' gives back the capitalised words. |
| Panoramas.StagedRows | backend/app/api/panoramas.py:200-212 | Staged questions become non-universal rows numbered from 0 in submission order. Their fields are copied unchanged. |
| Panoramas.SaveQuestions | backend/app/api/panoramas.py:157-261 | The save succeeds with the rows of the panorama's universal questions for its config (3 to 8, negative orders) followed by the staged rows numbered 0..n-1. The counts add up. |
| Panoramas.SavedOrdersIncrease | backend/app/api/panoramas.py:185-215 | Saved rows are strictly ordered by `order`: universal rows before staged ones. |
| PulseApi.IdRun | backend/app/api/pulse.py:69-70 | The greedy id group reads the longest run of `[A-Za-z0-9_-]` characters at its position. |
| PulseApi.IdRunOf | backend/app/api/pulse.py:69-70 | A maximal run of id characters is exactly what the group reads. |
| PulseApi.FirstMatch | backend/app/api/pulse.py:74 | `re.search` finds the leftmost match, and none exactly when the pattern matches nowhere. |
| PulseApi.SearchGroup | backend/app/api/pulse.py:73-76 | There is a group exactly when the pattern matches. The group is the id run after the prefix at the leftmost match. |
| PulseApi.LeftmostUnique | backend/app/api/pulse.py:74 | There is only one leftmost match. |
| PulseApi.ExtractInstagramPostId | backend/app/api/pulse.py:61-78 | The post pattern is tried first, then the reel pattern. Neither matching raises the fixed error. A found id is a non-empty run of id characters. |
| PulseApi.PostUrlRoundTrip | backend/app/api/pulse.py:61-78 | A post URL gives back exactly the id written after `instagram.com/p/`. |
| PulseApi.ReelUrlRoundTrip | backend/app/api/pulse.py:61-78 | A reel URL gives back exactly the id written after `instagram.com/reel/`. |
| PulseApi.WithoutLowerIRejected | backend/app/api/pulse.py:68-78 | The host is matched case-sensitively: a URL without a lower-case 'i' is rejected. |
| Text.Strip | backend/app/services/llm_service.py:374 | `strip()` leaves no whitespace at either end and never lengthens the text. |
| Text.StripEmptyIff | backend/app/services/llm_service.py:374-376 | Stripping leaves nothing exactly when the text is all whitespace. |
| Text.SplitJoin | backend/app/services/analytics/cache_manager.py:55 | Splitting a join on a separator that no part contains gives back the parts. |

## Left out

- Model calls, HTTP fetches, database reads and writes, Instagram messaging and `send_invitation`: these are external calls. Their results are input values, and the conversation's stored records are explicit state.
- The system and user prompt texts built from the context and the prompt files (`_build_prompt`, the loaded prompt templates): free text consumed only by the model.
- JSON decoding, including the fenced-code and bracket fallbacks of `_parse_response`: it is folded into the reply's variants (sections object, questions object, list, unusable).
- Question-list entries are modelled as a dictionary or `NotADict`. A non-dict entry is skipped; among dictionaries only a non-string `question_text` is distinguished, as the case where `.strip()` raises. Other field types are not represented.
- Unicode: `lower`, `upper`, `strip`, `\s`, `\w` and `capitalize` are modelled on ASCII, with whitespace being ' ' and the control characters 9-13 and 28-31.
- ConversationHandler.ParseRendered: `int()` also accepts surrounding whitespace, underscores between digits and non-ASCII digits. The model accepts only an optional sign and ASCII digits, on text that is already stripped.
- The recommended type mix of the pre-event configuration: its values are floating-point percentages. `ConfigPromptLines` therefore stops at the type-mix heading, and `get_survey_constraints` omits the mix.
- PreEventConfig.FormatConfigForPrompt: states only that the block opens with the rules heading. Its line structure is stated by `ConfigPromptLines`.
- The getters `get_forbidden_patterns`, `get_allowed_categories`, `get_bucket_question_counts`, `get_max_must_have_goals`, `get_all_questions` and `get_placeholder_tokens`: each returns a copy of a constant, and the model uses the constants directly.
- `repr` of option lists in prompt lines: modelled for strings without backslashes or control characters, which holds for every option in the bank and the catalogue.
- QuestionStrategies.VipEllipsisIff: assumes no perk is empty or ends in '.', because a perk like "Lounge..." would make the line end in an ellipsis without a fourth perk.
- PulseApi.ReelUrlRoundTrip: proved for URLs whose only lower-case 'i' outside the id is the one opening `instagram.com`. A post URL elsewhere in the text would otherwise win, because the post pattern is tried first.
- Panoramas.SaveQuestions: models a panorama that exists. The "not found" and database-error branches are left out. The "No questions provided" branch is unreachable, because there are always at least three universal rows.
- `format_timestamp` and the CSV export: they depend on date parsing and formatting.
- `_detect_platform`, `_fetch_html` and `get_platform_name`: a stub that always returns None, a network call and a label.
- The script, style and comment removal in `_clean_html` (non-greedy, case-insensitive regular expressions): `CleanHtml` models the whitespace collapse and the truncation that follow them.
- The 25 fallback survey questions are stated by count, order and event name only, not sentence by sentence.
- EventScraper.Merge: the record's fields are assumed well-typed. An artist or tier name that is `null`, or a VIP perk that is not a string, makes `.lower()` raise inside the merge (event_scraper.py:145, 162, 178, 188). The merge call at event_scraper.py:114 sits outside the per-URL `try`, so that exception escapes `extract_from_urls`. The model's records hold strings only and cannot represent this.
- EventScraper.MergedLineupOrder: lineup ranks are integers or absent; a missing rank sorts as 999. A rank present as `null` or as a string makes the merge's sort raise `TypeError` once it is compared with another rank; that exception escapes the merge and is not represented.
- Timestamps written by the conversation handler (`last_interaction_at`): they come from the clock and are never read back.
