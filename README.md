# PrettyPrompt, modelled in Dafny

PrettyPrompt rewrites, analyses and compares prompts for large language
models. It has three parts, and this project models the core of each.

- **Prompt backends** (Python, FastAPI). Each endpoint sends one or more chat
  requests to a hosted model and post-processes what comes back:
  - `/prompt-assist`: optional example synthesis, then a rewrite, with a
    three-attempt retry and exponential back-off on server errors.
  - `/compare`: two answers, then a graded comparison decoded from JSON.
  - The older analyzer backend: analyse, suggest and rewrite a prompt.
  - `grab_json`: picks the first `{...}` block out of a completion.
  - Markdown code-fence stripping, used by the endpoints above.
- **Template data pipeline**: three agents produce topics, meta-prompts and
  final prompts for an industry, which are posted to the templates API. A
  database writer inserts templates and skips ids that already exist.
- **Web app** (Next.js, TypeScript):
  - the shared template catalogue (`/api/templates`);
  - the per-user template store (`/api/usertemplates`), grouped by industry;
  - registration by e-mail and one-time code (`/api/auth/register`) and the
    sign-up page that calls it;
  - `slugify`/`unslugify` for industry names in URLs.

The model calls these things through function-typed parameters (oracles):
the hosted model, the agents, JSON decoding, `decodeURIComponent`, bcrypt,
the clock, `fetch`/`signIn` and the HTTP POST. Every property holds
whatever those functions do. Records the source updates in place are
classes with `modifies` clauses:
- the SQL `Template` table (`DataAgents.TemplateTable`);
- the catalogue (`TemplatesApi.Catalog`);
- the user-template store (`UserTemplates.UserTemplateStore`);
- the user and code tables (`Register.AuthStore`);
- the sign-up form's state (`RegisterPage.RegisterForm`).

The loops of the source are methods with loop invariants, each proved
equal to a specification function:
- `RetryPolicy.CallWithRetry`
- `Pipeline.MakeMeta`, `Pipeline.GenerateFinal`, `Pipeline.SaveAll`
- `UserTemplates.CollectByIndustry`

The lemmas are stated about those functions.

Modules, one per file:
- `Wrappers` (`Option`, `Result`)
- `Text` (Python and JavaScript whitespace, `strip`, `trim`, `join`)
- `Json` (the decoded value)
- `Llm` (requests and outcomes of a chat call)
- `Fences`, `Extraction`, `RetryPolicy`, `Assist`, `Models`, `Compare`
- `Analyzer`, `Pipeline`, `DataAgents`
- `Slug`, `TemplatesApi`, `UserTemplates`, `Register`, `RegisterPage`

## Model

| member | source | states |
|---|---|---|
| Fences.OpeningFenceEnd | apps/backend/main.py:45 | the opening alternative ``` ```(\w+)?\s* ``` matches only at the start, so at least three characters when the text opens with a fence |
| Fences.StripFences | apps/backend/main.py:44-46 | a completion that does not open (after leading space) with a fence is returned unchanged; otherwise the result is stripped and lies inside the completion |
| Fences.FencedRoundTrip | apps/backend/main.py:44-46 | removing a fence with any word tag from a fenced block gives back the stripped body, for every body |
| Fences.FencedOpening | apps/backend/main.py:45 | on a fenced block the opening match ends after the tag and the whitespace after it, and the closing fence is the only other match |
| Fences.StripIsIdempotent | apps/backend/main.py:46 | stripping a stripped text changes nothing |
| Fences.StripSurroundingSpace | apps/backend/main.py:45-46 | whitespace added on either side of a text does not change its stripped form |
| Fences.StripOfSliceIsInfix | apps/backend/main.py:44-46 | what the fence removal leaves, stripped, is a piece of the original completion |
| Fences.MarksRemovedIsSlice | apps/backend/main.py:45 | on a stripped fenced text the substitution only cuts text off both ends |
| Fences.StrippedEndsInNonSpace | apps/backend/main.py:45-46 | a stripped text never ends in a fence followed by a newline, so the closing alternative can only match at the very end |
| Extraction.IndexFrom | apps/backend/main.py:49 | the first position at or after `from` holding the character, or none when no later position holds it (derived from `Text.IndexOf`) |
| Extraction.FirstObject | apps/backend/main.py:49 | the lazy search finds nothing exactly when no `{` is followed later by a `}`; otherwise it returns the span from the first `{` to the first `}` after it |
| Extraction.SpanIsFirstObject | apps/backend/main.py:49 | the span from the first `{` to the first `}` after it is the lazy match |
| Extraction.GrabJson | apps/backend/main.py:38-52 | `grab_json` fails, with its fixed message, exactly when the de-fenced completion holds no `{`...`}` pair; otherwise it returns the first lazy match of the de-fenced text |
| Extraction.FirstObjectUnique | apps/backend/main.py:49 | the lazy match is determined by the text |
| Extraction.FirstObjectFrame | apps/backend/main.py:49 | text without braces around a completion does not change the match |
| Extraction.FirstObjectOfStripped | apps/backend/main.py:46-49 | stripping whitespace does not change the object found |
| Extraction.FencedExtraction | apps/backend/main.py:44-52 | a completion wrapped in a fence yields the same result as its body alone |
| Extraction.SameObjectSameResult | apps/backend/main.py:49-52 | two completions whose de-fenced texts have the same first match give the same result |
| Extraction.MatchingClose | apps/backend/main.py:48 | the index of the `}` that brings the nesting depth back to zero lies within the text |
| Extraction.BalancedObject | apps/backend/main.py:48 | the span from the first `{` to its matching `}` is a balanced object starting at the first `{` |
| Extraction.GrabBalancedJson | apps/backend/main.py:48-52 | the corrected extractor returns a balanced object that starts at the first `{` of the de-fenced text, or the fixed error message |
| Extraction.MatchingCloseSound | apps/backend/main.py:48 | the brace found by the depth scan closes a balanced object |
| Extraction.MatchingCloseComplete | apps/backend/main.py:48 | inside a balanced object the depth scan stops exactly at its last brace |
| Extraction.BalancedObjectAfter | apps/backend/main.py:48 | a balanced object after text without `{` is found whole, whatever follows it |
| Extraction.BalancedExtraction | apps/backend/main.py:48-52 | round trip of the corrected extractor: a balanced object placed after text without `{` is returned whole, whatever text follows |
| Extraction.NestedObjectIsCut | apps/backend/main.py:48-52 | on `{"a":{}}` the lazy match stops at the inner `}`, giving an unbalanced object, while the corrected extractor returns the whole object |
| Extraction.NestedGrabIsCut | apps/backend/main.py:49-52 | `grab_json` returns the cut-off prefix of the nested object |
| Extraction.NestedGrabBalanced | apps/backend/main.py:48 | the corrected extractor returns the nested object whole |
| Extraction.BalancedObjectAlone | apps/backend/main.py:48 | a balanced object on its own is its own extraction |
| RetryPolicy.Backoff | apps/backend/main.py:161-162 | the sleeps after failed attempts 1..n are 2, 4, ..., 2^n seconds |
| RetryPolicy.RetryFrom | apps/backend/main.py:150-162 | the loop from a given attempt makes at most three calls; every call before the last raised a server error; a final server error comes only on the third attempt; the sleeps are the back-off of the failed attempts |
| RetryPolicy.Retry | apps/backend/main.py:148-162 | at most three calls; the outcome is the last call's; every earlier call raised `InternalServerError`; a server error is re-raised only after the third attempt; the sleeps are 2, 4 seconds for the failed attempts |
| RetryPolicy.CallWithRetry | apps/backend/main.py:148-162 | the loop of `call_groq_with_retry` makes the calls and sleeps of `Retry` |
| RetryPolicy.RetryStep | apps/backend/main.py:157-162 | a server error on a non-final attempt adds one sleep of 2^attempt and moves to the next attempt |
| RetryPolicy.NoRetryWithoutServerError | apps/backend/main.py:152-157 | a first call that completes or raises another error is the only call, with no sleep |
| RetryPolicy.ExhaustedRetry | apps/backend/main.py:157-162 | after three server errors the third is raised, after sleeping 2 then 4 seconds |
| RetryPolicy.GivesUpIffThreeServerErrors | apps/backend/main.py:148-162 | the policy ends in a server error exactly when three calls in a row raised one |
| Assist.LastThree | apps/backend/main.py:145 | `xs[-3:]`: the last three entries, or all when there are fewer |
| Assist.ContextBlock | apps/backend/main.py:144-145 | the block is empty exactly when the context is absent or empty, and otherwise opens with the conversation-context header |
| Assist.OlderContextIgnored | apps/backend/main.py:145 | entries older than the last three never reach the model |
| Assist.RewriteStep | apps/backend/main.py:191-205 | the rewrite step sends the rewrite request, makes one to three calls from its start, and sleeps the back-off after the sleeps already made |
| Assist.Assist | apps/backend/main.py:164-205 | the handler makes the example step and then the rewrite step, with the calls, sleeps and result `AssistSpec` gives |
| Assist.ExamplePhase | apps/backend/main.py:165-181 | the example step is made only when asked; the base prompt gains the stripped example on success and falls back to the plain prompt after three server errors |
| Assist.RewriteMessages | apps/backend/main.py:183-189 | the rewrite request is the system prompt plus `build_prompt`, with the context block appended to the user message |
| Assist.SendRewrite | apps/backend/main.py:191-205 | a server error that survives the retries becomes HTTP 503; otherwise the answer is the stripped completion |
| Assist.ExampleFallsBack | apps/backend/main.py:166-181 | without an example (none asked for, or three server errors) the rewrite request carries the plain prompt |
| Assist.ExampleIsUsed | apps/backend/main.py:177-178 | a successful example is appended, stripped, under `### Example`, and at least two calls are made |
| Assist.ExampleCompletes | apps/backend/main.py:169-178 | an example call that completes at once is one call, with no sleep, and sets the base prompt |
| Assist.RewriteStepUnavailable | apps/backend/main.py:197-202 | the rewrite step answers 503 exactly when its three calls all raised a server error |
| Assist.UnavailableIffRewriteExhausted | apps/backend/main.py:164-205 | `assist` answers 503 exactly when the rewrite step was reached and its three calls, numbered after the example's, all failed with a server error |
| Assist.RewriteStepSuccess | apps/backend/main.py:204-205 | a successful rewrite step answers the stripped content of its last call, one of its three |
| Assist.SuccessIsStrippedCompletion | apps/backend/main.py:191-205 | on success the answer is the stripped completion of one of the rewrite step's calls |
| Assist.ContextBlockTwice | apps/backend/main.py:183-189 | the user message holds the context block twice, once from `build_prompt` and once appended by `assist`; the block is empty exactly when there is no context |
| Compare.CriteriaItems | apps/backend/main.py:270 | the elements `for c in data["criteria"]` visits: those of the array under `criteria`; nothing unless the key is present |
| Compare.ToCriterion | apps/backend/main.py:271-275 | a criterion is made exactly when `name` is a string and `score_a`, `score_b` are integers, and it holds those values |
| Compare.ToCriteria | apps/backend/main.py:270-276 | the list comprehension fails exactly when some item does not convert; otherwise the criteria match the items one by one |
| Compare.Compare | apps/backend/main.py:240-286 | calls 0 and 1 answer the two prompts and call 2 grades their stripped answers; a failing call is the error, first failure first, then an undecodable grading reply, then a reply without the criteria shape; the result is a comparison exactly when none of these happens, and then its criteria are the decoded `criteria` items in order and the totals their sums |
| Compare.CompareOkIff | apps/backend/main.py:240-286 | the endpoint answers with a comparison exactly when all three calls complete, the grading reply decodes and its criteria have the expected shape |
| Compare.TotalOriginalAppend | apps/backend/main.py:277 | the original total is additive over concatenation |
| Compare.TotalRewriteAppend | apps/backend/main.py:278 | the rewrite total is additive over concatenation |
| Compare.TotalsWithinRange | apps/backend/main.py:277-278 | with every score in 1..5, as the grading prompt asks, each total lies between the count and five times the count |
| Compare.OutOfRangeAccepted | apps/backend/main.py:270-278 | scores outside 1..5 (9 and -2) are accepted and summed as they are |
| Compare.MissingTaskFallsBack | apps/backend/main.py:247-255 | a missing task and an empty one both give the fixed fallback sentence in the grading payload |
| Compare.GivenTaskIsSent | apps/backend/main.py:247-255 | a given task is sent as it is, right after `Task: ` |
| Compare.JsonFencedRoundTrip | apps/backend/main.py:266 | a reply fenced as ```` ```json ```` comes back as its stripped body |
| Compare.JsonFencedMarks | apps/backend/main.py:266 | the substitution removes exactly the ```` ```json ```` opener and the closing fence |
| Compare.UnfencedReplyOnlyStripped | apps/backend/main.py:266 | a reply without the marks is only stripped |
| Json.Strings | backend/main.py:87 | the strings of a string array, one per element and in order |
| Json.StringArray | backend/main.py:87 | the array of given strings is a string array whose strings are those given |
| Json.StringArrayOfStrings | backend/main.py:113 | every string array is the array of its strings |
| Analyzer.OptionString | backend/main.py:30-31 | decoding a nullable string field and encoding it back gives the field |
| Analyzer.OptionStrings | backend/main.py:29-32 | decoding a nullable list-of-strings field and encoding it back gives the field |
| Analyzer.ToAnalysis | backend/main.py:27-32 | the analysis read from a validated object describes that object field by field |
| Analyzer.DescribedIsValid | backend/main.py:27-32 | an object that describes an analysis validates, and validation gives back that analysis |
| Analyzer.InvalidJsonMessage | backend/main.py:73 | the error message starts with `LLM returned invalid JSON: ` and ends with the payload |
| Analyzer.ValidateAnalysis | backend/main.py:70-73 | validation succeeds exactly when the payload decodes to a valid `PromptAnalysis` object, and the result describes it; otherwise the `ValueError` message |
| Analyzer.AnalyzePrompt | backend/main.py:55-73 | a failed model call is the error; a completion is de-fenced and then validated |
| Analyzer.UnfencedAnalysisIsValidatedAsIs | backend/main.py:66-71 | a completion that does not open with a fence is validated exactly as it came |
| Analyzer.FencedAnalysisIsValidatedAsBody | backend/main.py:66-71 | a fenced completion is validated as its stripped body |
| Analyzer.AnalysisErrorShowsPayload | backend/main.py:72-73 | a rejected completion's error message carries the payload that was validated |
| Analyzer.SuggestImprovements | backend/main.py:100-113 | a failed call or undecodable payload is the error; the suggestions exist exactly when the de-fenced payload decodes to a string array, and are that array |
| Analyzer.SuggestionsAreTheArray | backend/main.py:109-113 | the suggestions are the decoded array's strings, unchanged and in order |
| Analyzer.NewlineFrom | backend/main.py:151 | the first newline at or after a position, or the end when there is none |
| Analyzer.RewriteFences | backend/main.py:148-151 | the rewritten prompt is stripped, and is the stripped completion when that does not open with a fence |
| Analyzer.RewriteFenceRoundTrip | backend/main.py:148-151 | removing a fence whose opening line carries any text gives back the stripped body |
| Analyzer.FencedRewriteMarks | backend/main.py:150-151 | on a fenced text the substitution leaves exactly the body |
| Analyzer.RewritePrompt | backend/main.py:139-152 | a failed call is the error; a completion always gives a rewritten prompt, the post-processed content |
| Analyzer.RewriteFailsOnlyUpstream | backend/main.py:139-152 | a rewrite fails exactly when the model call fails, and a rewritten prompt is whitespace-stripped |
| Analyzer.Endpoint | backend/main.py:78-81 | the endpoint answers 200 with the helper's result, or 500 with the exception's text |
| Analyzer.AnalyzeEndpointStatus | backend/main.py:76-81 | `/analyze-prompt` answers 200 exactly when the model answers and the de-fenced answer validates; otherwise 500 with the upstream error or the invalid-JSON message |
| Analyzer.SuggestEndpointStatus | backend/main.py:116-121 | `/suggest-improvements` answers 200 exactly when the de-fenced answer decodes to a string array; an upstream error is the 500 detail |
| Analyzer.RewriteEndpointStatus | backend/main.py:155-160 | `/rewrite-prompt` answers 500 exactly when the model call fails, with that error's text; otherwise the post-processed completion |
| Pipeline.TopicPromptEmbeds | apps/backend/data/run_pipeline.py:29-33 | the topic prompt holds the count, right after the intro, and the industry |
| Pipeline.GenTopics | apps/backend/data/run_pipeline.py:28-35 | one topic-agent run: its error, the decoding error, or the decoded value, with no check of its shape |
| Pipeline.MetaPromptEmbeds | apps/backend/data/run_pipeline.py:42-55 | the meta prompt holds the topic and, in place of the industry, the literal `**{industry}**` |
| Pipeline.Metas | apps/backend/data/run_pipeline.py:40-68 | when the stage succeeds it has one meta per topic, each the step's result for that topic, in order |
| Pipeline.MetasOkIffAllSteps | apps/backend/data/run_pipeline.py:41-67 | the stage succeeds exactly when every topic's step does |
| Pipeline.MetaFirstFailureWins | apps/backend/data/run_pipeline.py:59-67 | the first failing topic's failure is the stage's failure; later topics do not matter |
| Pipeline.MetaFailureStays | apps/backend/data/run_pipeline.py:64-67 | a failure among the first topics is the failure of the whole stage |
| Pipeline.MakeMeta | apps/backend/data/run_pipeline.py:39-68 | the loop of `make_meta` returns what `Metas` gives for all topics |
| Pipeline.MetaStepMeaning | apps/backend/data/run_pipeline.py:56-63 | an accepted meta is the decoded reply of the meta agent to the topic's prompt, and has both required keys |
| Pipeline.FinalStepMeaning | apps/backend/data/run_pipeline.py:75-79 | a final is made only from a meta whose `meta_prompt` is a string and which has a `topic`; it holds that topic and the stripped agent reply |
| Pipeline.Finals | apps/backend/data/run_pipeline.py:72-80 | when the stage succeeds it has one final per meta |
| Pipeline.FinalsAt | apps/backend/data/run_pipeline.py:74-79 | the k-th final is the k-th meta's step |
| Pipeline.FinalFailureStays | apps/backend/data/run_pipeline.py:74-79 | a failure among the first metas is the failure of the stage |
| Pipeline.GenerateFinal | apps/backend/data/run_pipeline.py:72-80 | the loop of `generate_final` returns what `Finals` gives for all metas |
| Pipeline.MetaStepIsMeta | apps/backend/data/run_pipeline.py:61-63 | an accepted meta has both keys |
| Pipeline.FinalStepTopic | apps/backend/data/run_pipeline.py:77 | a final's topic is the meta's `topic` value |
| Pipeline.FinalsFollowMetas | apps/backend/data/run_pipeline.py:39-80 | finals correspond to topics one by one, and each copies the topic the meta reply echoed, not the seed topic |
| Pipeline.SaveAll | apps/backend/data/run_pipeline.py:98-108 | every final is posted, in order, whatever happened to earlier ones, and the log has one line per final |
| Pipeline.StringListVisitsItsStrings | apps/backend/data/run_pipeline.py:41 | a topic reply that is a list of strings is iterated string by string |
| Pipeline.ScalarListVisited | apps/backend/data/run_pipeline.py:41-45 | a list of numbers, booleans or nulls is iterated too, each element as Python's `str` renders it (`None`, `True`, `False`, decimal) |
| Pipeline.StringReplyVisitsCharacters | apps/backend/data/run_pipeline.py:41 | a string topic reply is iterated one character at a time |
| Pipeline.RunPipeline | apps/backend/data/run_pipeline.py:84-108 | the script runs its stages in order, each starting only after the previous one produced its whole list; the meta stage iterates the decoded topic reply |
| Pipeline.ScalarTopicsAbortInMetaStage | apps/backend/data/run_pipeline.py:39-41 | a topic reply that is a number, a boolean or null fails in the meta stage, before any meta agent runs |
| Pipeline.FinishedRunPostsEveryTopic | apps/backend/data/run_pipeline.py:84-108 | a finished run posted one payload per topic, in order, each with the run's industry, the echoed topic and the final prompt |
| Pipeline.MetaFailureAbortsRun | apps/backend/data/run_pipeline.py:64-89 | a failing meta step ends the run in the meta stage: no final prompt is made and nothing is posted |
| DataAgents.ListIndustries | apps/backend/data/agents.py:34-38 | the lister returns the same five distinct industries for any input, from `E-commerce` to `Education` |
| DataAgents.IdsMembers | apps/backend/data/agents.py:67-78 | an id is among the batch's ids exactly when some item carries it |
| DataAgents.InsertAllKeys | apps/backend/data/agents.py:67-78 | the batch adds exactly the ids that were not there yet, and no other row |
| DataAgents.ExistingRowsUnchanged | apps/backend/data/agents.py:77 | `on_conflict_do_nothing`: a row that was there before the batch is left exactly as it was |
| DataAgents.FirstItemWins | apps/backend/data/agents.py:69-78 | a new id gets the row of the first item carrying it, stamped at that item's time; later items with the id are skipped |
| DataAgents.RerunChangesNothing | apps/backend/data/agents.py:65-77 | running the same batch again, at any later time, changes nothing |
| DataAgents.StringItemsInsertable | apps/backend/data/agents.py:16-22 | a batch whose five columns are all present strings is insertable, however other JSON values would be cast |
| DataAgents.UnstorableItemFailsBatch | apps/backend/data/agents.py:16-78 | one item with a missing column, a null (`NOT NULL`, primary key) or a dict (not adaptable) in a column fails the whole batch |
| DataAgents.TemplateTable.Run | apps/backend/data/agents.py:67-78 | the transaction commits exactly when every item has all five columns and each value can be stored in its text column, and then the table is the batch's insert-or-skip result on the stored texts; otherwise the table is unchanged |
| Slug.DashRuns | apps/web/frontend/src/lib/slug.ts:5 | every whitespace run becomes one dash: no whitespace is left and the text does not grow |
| Slug.KeepSlugChars | apps/web/frontend/src/lib/slug.ts:6 | only word characters and dashes are kept |
| Slug.Slugify | apps/web/frontend/src/lib/slug.ts:2-7 | a slug holds only word characters and dashes and is no longer than its input |
| Slug.TrimUnspaced | apps/web/frontend/src/lib/slug.ts:4 | trimming a text with no whitespace at either end leaves it alone |
| Slug.DashRunsWithoutSpace | apps/web/frontend/src/lib/slug.ts:5 | a text without whitespace is not changed by the dash replacement |
| Slug.KeepSlugCharsOfSlug | apps/web/frontend/src/lib/slug.ts:6 | a slug is not changed by the removal |
| Slug.SlugifyIdempotent | apps/web/frontend/src/lib/slug.ts:2-7 | slugifying a slug changes nothing |
| Slug.WordCharsOfTrim | apps/web/frontend/src/lib/slug.ts:4 | trimming keeps every word character, in order |
| Slug.WordCharsOfDashRuns | apps/web/frontend/src/lib/slug.ts:5 | the dash replacement keeps every word character, in order |
| Slug.WordCharsOfKeep | apps/web/frontend/src/lib/slug.ts:6 | the removal keeps every word character, in order |
| Slug.SlugifyKeepsWordChars | apps/web/frontend/src/lib/slug.ts:2-7 | `slugify` never drops a word character: the input's word characters come out in order |
| Slug.Split | apps/web/frontend/src/lib/slug.ts:11 | splitting gives one segment more than there are separators, none containing it |
| Slug.JoinSplit | apps/web/frontend/src/lib/slug.ts:11-13 | joining the segments with the separator gives the text back |
| Slug.CapitalizeAll | apps/web/frontend/src/lib/slug.ts:12 | one capitalized segment per segment |
| Slug.UnslugFrom | apps/web/frontend/src/lib/slug.ts:10-13 | the character-by-character reading of `unslugify` keeps the length |
| Slug.UnslugFromAt | apps/web/frontend/src/lib/slug.ts:10-13 | each output character is the input character mapped: dash to space, segment start upper-cased |
| Slug.UnslugFromSegments | apps/web/frontend/src/lib/slug.ts:10-13 | the character mapping equals split, capitalize each segment, join with spaces |
| Slug.UnslugifyPointwise | apps/web/frontend/src/lib/slug.ts:8-14 | `unslugify` keeps the length, turns each dash into a space and upper-cases each segment's first character |
| Slug.Dashed | apps/web/frontend/src/lib/slug.ts:5 | the text with every space turned into a dash, position by position |
| Slug.DashRunsSingleSpaced | apps/web/frontend/src/lib/slug.ts:5 | on single-spaced text the dash replacement only turns spaces into dashes |
| Slug.SlugifyTitleWords | apps/web/frontend/src/lib/slug.ts:2-7 | `slugify` turns the single spaces of title words into dashes and keeps everything else |
| Slug.UnslugifySlugify | apps/web/frontend/src/lib/slug.ts:2-14 | for capitalized ASCII words separated by single spaces, `unslugify` undoes `slugify` |
| TemplatesApi.StrLeTotal | apps/web/frontend/src/app/api/templates/route.ts:13 | the industry order relates any two strings |
| TemplatesApi.StrLeTransitive | apps/web/frontend/src/app/api/templates/route.ts:13 | the industry order is transitive |
| TemplatesApi.InsertByIndustry | apps/web/frontend/src/app/api/templates/route.ts:13 | inserting into an ordered list keeps it ordered and adds exactly the one template |
| TemplatesApi.SortByIndustry | apps/web/frontend/src/app/api/templates/route.ts:13 | the listing is a permutation of its input, ordered by industry |
| TemplatesApi.OfIndustry | apps/web/frontend/src/app/api/templates/route.ts:12 | the rows of exactly the given industry |
| TemplatesApi.List | apps/web/frontend/src/app/api/templates/route.ts:6-21 | the listing succeeds exactly when the database answers and the parameter is absent, empty or decodable; it is ordered by industry; a failure is the fixed 500 message |
| TemplatesApi.ListAllWithoutIndustry | apps/web/frontend/src/app/api/templates/route.ts:9-14 | without an industry every stored template is listed, each as often as stored |
| TemplatesApi.ListOneIndustry | apps/web/frontend/src/app/api/templates/route.ts:9-14 | with an industry exactly the templates of the decoded industry are listed, each as often as stored |
| TemplatesApi.Decide | apps/web/frontend/src/app/api/templates/route.ts:25-46 | a rejected body gets the fixed 400 message, a crash the fixed 500 message |
| TemplatesApi.InsertIffFields | apps/web/frontend/src/app/api/templates/route.ts:25-37 | a record is made exactly when the body parses to an object whose three fields are non-empty strings, and it holds those strings |
| TemplatesApi.FalsyFieldIsBadRequest | apps/web/frontend/src/app/api/templates/route.ts:28-33 | a missing, empty, `null`, `false` or `0` field is a 400 |
| TemplatesApi.Catalog.Post | apps/web/frontend/src/app/api/templates/route.ts:23-47 | 201 exactly when the database answers and the fields pass, appending exactly the returned record with a fresh id; 400 exactly for a falsy field; every non-201 answer leaves the table as it was |
| UserTemplates.Status | apps/web/frontend/src/app/api/usertemplates/route.ts:9-65 | 401 exactly for the unauthorized reply, 200 for the grouped listing, 201 for the created rows, 500 for the unhandled error |
| UserTemplates.OwnedBy | apps/web/frontend/src/app/api/usertemplates/route.ts:17 | the rows whose owner is the user, and only those |
| UserTemplates.InsertByDate | apps/web/frontend/src/app/api/usertemplates/route.ts:18 | inserting into a newest-first list keeps it newest first and adds exactly the one template |
| UserTemplates.NewestFirst | apps/web/frontend/src/app/api/usertemplates/route.ts:18 | a permutation of its input, newest first |
| UserTemplates.GroupingStep | apps/web/frontend/src/app/api/usertemplates/route.ts:22-26 | one more template adds its industry to the keys only if it is new |
| UserTemplates.WithIndustryStep | apps/web/frontend/src/app/api/usertemplates/route.ts:23-24 | one more template joins the end of its own industry's list only |
| UserTemplates.WithIndustryAbsent | apps/web/frontend/src/app/api/usertemplates/route.ts:23 | an industry not seen yet has no templates |
| UserTemplates.CollectByIndustry | apps/web/frontend/src/app/api/usertemplates/route.ts:22-26 | the reduce throws exactly when some template's industry is a name the object inherits from `Object.prototype`; otherwise its keys are the industries in order of first occurrence, and each holds that industry's templates in order |
| UserTemplates.GroupByIndustry | apps/web/frontend/src/app/api/usertemplates/route.ts:22-31 | throws exactly when the reduce does; otherwise the entries are the grouping of the templates: one per industry, first occurrence first, templates in order |
| UserTemplates.IndustriesMembers | apps/web/frontend/src/app/api/usertemplates/route.ts:22-26 | an industry is a key exactly when some template has it |
| UserTemplates.IndustriesDistinct | apps/web/frontend/src/app/api/usertemplates/route.ts:29-31 | the groups' industries are distinct |
| UserTemplates.IndustriesOfPrefix | apps/web/frontend/src/app/api/usertemplates/route.ts:22-26 | the keys of a prefix are a prefix of the keys: a group never moves ahead of one opened earlier |
| UserTemplates.WithIndustryMembers | apps/web/frontend/src/app/api/usertemplates/route.ts:23-24 | an industry's group holds exactly the templates of that industry |
| UserTemplates.WithIndustryKeepsOrder | apps/web/frontend/src/app/api/usertemplates/route.ts:18-24 | a group taken from a newest-first list is newest first |
| UserTemplates.GroupsPartition | apps/web/frontend/src/app/api/usertemplates/route.ts:22-31 | every template lands in its industry's group and no other; each group holds only its industry; industries are distinct; no group is empty |
| UserTemplates.NoTemplatesNoGroups | apps/web/frontend/src/app/api/usertemplates/route.ts:33-34 | no templates, no groups: the response is `[]` |
| UserTemplates.UserTemplateStore.Create | apps/web/frontend/src/app/api/usertemplates/route.ts:53-60 | appends exactly one row with a fresh id, stamped now, and keeps ids increasing |
| UserTemplates.Get | apps/web/frontend/src/app/api/usertemplates/route.ts:9-35 | 401 without a user id; 500 when the grouping throws; otherwise the user's templates, newest first, grouped by industry |
| UserTemplates.InheritedIndustryThrows | apps/web/frontend/src/app/api/usertemplates/route.ts:22-24 | one saved template whose industry is an inherited name such as `toString` makes the user's `GET` throw |
| UserTemplates.GetShowsOnlyOwnTemplates | apps/web/frontend/src/app/api/usertemplates/route.ts:16-31 | every template shown belongs to the user and sits in its industry's group |
| UserTemplates.GetShowsEveryOwnTemplate | apps/web/frontend/src/app/api/usertemplates/route.ts:16-31 | every template of the user is shown in its industry's group |
| UserTemplates.GetGroupsNewestFirst | apps/web/frontend/src/app/api/usertemplates/route.ts:18-31 | within each group templates are newest first |
| UserTemplates.Post | apps/web/frontend/src/app/api/usertemplates/route.ts:40-65 | 401 without a user id and nothing changes; otherwise one new row per input element, in order, appended to the table and returned, with the id counter advanced by the number of inputs |
| UserTemplates.CreatedRows | apps/web/frontend/src/app/api/usertemplates/route.ts:51-62 | the k-th created row has the k-th fresh id, the session's user, the shared industry, the k-th topic and prompt, and the k-th timestamp |
| Text.IndexOf | apps/web/frontend/src/app/api/auth/register/route.ts:13 | the first position at or after the start holding the character, or the length when none does |
| Register.CountTwo | apps/web/frontend/src/app/api/auth/register/route.ts:13 | two occurrences of a character make a count of at least two |
| Register.MatchIsValid | apps/web/frontend/src/app/api/auth/register/route.ts:13 | every string the pattern matches passes the check |
| Register.ValidIsMatch | apps/web/frontend/src/app/api/auth/register/route.ts:13 | every string that passes the check is matched by the pattern, at a split the lemma returns |
| Register.ValidEmailIsPattern | apps/web/frontend/src/app/api/auth/register/route.ts:13 | the check accepts exactly the strings `^[^\s@]+@[^\s@]+\.[^\s@]+$` matches |
| Register.FirstOtp | apps/web/frontend/src/app/api/auth/register/route.ts:30 | the code row found belongs to the email; none is found only when the email has no row |
| Register.AcceptedIffAllChecksPass | apps/web/frontend/src/app/api/auth/register/route.ts:12-37 | registration goes through exactly when the email matches, the password has at least 8 characters, a code is given, the email is new, its code row has not expired and the code matches |
| Register.RegisteredEmailIgnoresCodes | apps/web/frontend/src/app/api/auth/register/route.ts:23-27 | a registered email is refused before any code is looked at, whatever the codes, clock and matcher |
| Register.ExpiryIsStrict | apps/web/frontend/src/app/api/auth/register/route.ts:31 | a code expiring exactly now is still accepted; only one that expired earlier is refused |
| Register.WithoutEmail | apps/web/frontend/src/app/api/auth/register/route.ts:39 | exactly the code rows of other emails remain |
| Register.AuthStore.Register | apps/web/frontend/src/app/api/auth/register/route.ts:9-50 | the reply is the first failing check's message or success; a refusal changes nothing; success removes every code row of the email and adds exactly one user with the hashed password, keeping emails unique |
| RegisterPage.PageEmailRuleIsRouteRule | apps/web/frontend/src/app/register/page.tsx:14-15 | the page's email check accepts exactly what the route's pattern matches |
| RegisterPage.ClientBody | apps/web/frontend/src/app/register/page.tsx:39 | the request body carries the email and password and no code |
| RegisterPage.FailedCheckSendsNothing | apps/web/frontend/src/app/register/page.tsx:19-32 | a failing form check shows its own message, in the handler's order, and sends nothing, sets no busy flag and goes nowhere |
| RegisterPage.RefusalShowsDetail | apps/web/frontend/src/app/register/page.tsx:43-47 | a refused registration shows the route's `detail`, or the fallback when it has none, and clears busy |
| RegisterPage.NavigationFollowsAcceptance | apps/web/frontend/src/app/register/page.tsx:34-62 | the page navigates only after the route accepted the request and sign-in reported no error; the target is the sign-in URL, defaulting to `/` |
| RegisterPage.RouteRefusesPageRequests | apps/web/frontend/src/app/register/page.tsx:25-40 | every request the page sends is refused by the route, for want of a code or for a password shorter than 8 |
| RegisterPage.IntendedBody | apps/web/frontend/src/app/register/page.tsx:39 | the corrected body carries the code |
| RegisterPage.IntendedRequestsReachTheTables | apps/web/frontend/src/app/api/auth/register/route.ts:13-37 | with the corrected form check a sent request passes all the route's form checks, and a fresh email with a matching, unexpired code is registered |
| RegisterPage.RegisterForm.HandleSubmit | apps/web/frontend/src/app/register/page.tsx:17-68 | the error, busy flag, location and requests sent afterwards are those `Submit` gives; the form inputs are untouched |

## Left out

- The hosted model, the agents, JSON decoding, HTTP, `decodeURIComponent`, bcrypt, `getServerSession`, `fetch` and `signIn` are oracle parameters. The model does not describe what they compute.
- Time is a parameter: the retry sleeps are recorded as a list of seconds, and timestamps come from a clock function.
- Logging and printing (`print`, `console.error`) are not modelled.
- The configuration constants are parameters: the mode instructions, the model guides and the agents' prompt texts. The properties hold for any texts. `Pipeline.Script` holds the script's own prompt texts.
- The system prompts are held verbatim as constants. How the hosted model reacts to them is part of the oracle.
- The decoded JSON value (`Json.Json`) has no floating-point numbers, in every module: a score of `4.0` that pydantic would accept as 4, a float topic that `str` renders as `1.5`, a `0.0` field the templates route finds falsy, and a float column value are not modelled.
- pydantic's lax coercions (for example a number given for a `str` field) are not modelled. Validation accepts only values of the declared JSON type.
- The regex class `\w` is ASCII letters, digits and underscore. This is exact for JavaScript without the `u` flag; Python's Unicode `\w` is narrowed to ASCII. `\s` is modelled in full for both languages: `Text.IsPySpace` is the `str.isspace` set and `Text.IsJsSpace` the ECMAScript whitespace and line terminators.
- `toUpperCase` is modelled on ASCII lower-case letters only.
- JavaScript strings are sequences of UTF-16 code units; the model uses characters.
- The `TemplateGenerator` agent (apps/backend/data/agents.py:41-59) is a single model call whose output goes straight to `json.loads`, so it is covered by the oracle parameters. It has no logic of its own to model.
- Pipeline.GenTopics: the decoded value is passed on as is, and `make_meta` iterates it. A list visits its elements and a string its characters; a number, boolean or null raises `TypeError` in the meta stage.
- Pipeline.RunPipeline: a topic reply that is a dict, or a list holding a list or a dict, ends the run early in the topic stage (`NotTopicList`). The script would iterate the dict's keys in document order, or render each nested element with Python's `repr`. The decoded JSON object does not keep key order, and `repr` is not modelled.
- DataAgents.TemplateTable.Run: how the driver and PostgreSQL store a number, boolean or list in a text column is a parameter (`Cast`). Only a string (stored as is), a null (refused by `NOT NULL`) and a dict (not adaptable) are fixed.
- Pipeline.SaveAll: `r.json()["id"]` on a successful POST is taken to succeed. The poster oracle returns the id directly.
- A completion whose `content` is `None` is not modelled. Completions carry a string.
- Object key order in `Object.entries`: the model keeps insertion order. JavaScript lists integer-like keys first. Keys inherited from `Object.prototype` are modelled as the `TypeError` they cause.
- The database's string collation is modelled as code-point order, and ties keep store order. Prisma's ids are counters.
- `Promise.all` runs the creations concurrently. The model creates them in input order.
- The request bodies of the register and user-template routes are taken as typed strings. A non-string `email` or `password`, or a malformed `templates` list, is not modelled.
- The user-template route has no `catch`, so its database errors are unhandled and not modelled. The store is always available there.
- URL parsing of the query string is not modelled. The parameter arrives already extracted.
- The bcrypt salt and cost are not modelled. The hash is a function of the password.
- Prisma's unique constraint on `User.email` is modelled as an invariant of `AuthStore`.
- Pipeline.RunPipeline: the script's industry is a parameter, and `Pipeline.ScriptIndustry` holds the script's own value.
- Assist.Assist: the `AssistResponse` carries only the stripped text. Response-model validation by FastAPI is not modelled.

## Findings

| source | as written | input that shows it | evidently intended | confidence | as-written member | corrected member |
|---|---|---|---|---|---|---|
| apps/backend/main.py:48-52 | `grab_json` takes the lazy match `\{[\s\S]*?\}`, which stops at the first `}` | `{"a":{}}` gives `{"a":{}`, which is not a JSON object | the comment at line 48 says the match stops at the matching `}`: return the whole balanced object | not executed | Extraction.NestedObjectIsCut | Extraction.BalancedExtraction |
| apps/web/frontend/src/app/register/page.tsx:25-40 | the page allows passwords of 6 or more characters and posts no `code`, while the route demands 8 characters and a code | any valid form, e.g. `a@b.co` with password `secret12`, gets `OTP code is required.` | the page checks the route's 8-character minimum and sends the code along | not executed | RegisterPage.RouteRefusesPageRequests | RegisterPage.IntendedRequestsReachTheTables |
