# Crypto dashboard report pipeline, in Dafny

This project models the report-generation core of the crypto dashboard, together with the stateful components around it.

**The two report workflows.** Each is a graph of stage nodes over one shared state dictionary, `ReportState`.
- The second workflow runs these nodes: prepare data, combined research and validation, validation, the HTML, JavaScript and CSS components, translation, and saving.
- The first workflow runs: research, validation, one interface call, code extraction, and saving.
- The graph is an explicit successor function over the edge table and the routing predicates. A run of the graph is a step-bounded loop, with LangGraph's recursion limit of 25 as the budget.
- Each node is a method on the `ReportState` class. It is proved against a specification function of the old state and of what the outside world answered.
- The outside world is the `Env` class. It holds the model service as a script of replies, the prompt files, the market data, the clock's date and the database. Sleeps, prompts and progress events are kept in ghost logs.

**Pure helpers.** The model covers:
- the validation-verdict scanner;
- the fenced-code extractors;
- the fallback quality score, both as written (its sum raises a `TypeError`) and as evidently intended;
- date-placeholder substitution;
- the real-time-data merge rule.

**Stateful components.** Each is a value datatype with transition functions, plus a class whose methods are proved to follow those functions:
- the adaptive rate limiter with its circuit breaker;
- the per-session progress table;
- the in-memory cache layer and its statistics;
- the server's WebSocket connection and room tables;
- the browser's WebSocket client;
- the browser's log manager;
- the progress card;
- the database-URL and environment configuration;
- the chart-module bundle;
- the background auto-report generator.

Strings are Dafny strings, which are sequences of Unicode scalar values, as in Python. Clocks are `real` or `nat` parameters.

## Model

| member | source | states |
|---|---|---|
| Fences.FenceBodyFound | app/services/workflow_nodes/base.py:145-150 | the regex search for a fence of a language succeeds exactly when an opener is followed by a closing triple backtick |
| Fences.FenceBodyHasNoTicks | app/services/workflow_nodes/base.py:145 | the lazy match stops at the first closing backticks, so the captured body never contains three backticks |
| Fences.FenceRoundTrip | app/services/workflow_nodes/base.py:145-147 | a fence placed after backtick-free text gives back exactly the body written into it |
| Fences.HtmlTagIgnoresCase | app/services/workflow_nodes/base.py:164 | the html-tag test is case-insensitive: lowering the text does not change it |
| Base.JsFence | app/services/workflow_nodes/base.py:147-150 | the "```javascript" fence is used when present, the "```js" fence only when it is absent |
| Base.ExtractCodeBlocks | app/services/workflow_nodes/base.py:133-173 | a missing or empty response gives empty html, the no-response comments and failure; success needs a response; non-empty html or an html tag anywhere implies success |
| Base.ExtractHtmlRoundTrip | app/services/workflow_nodes/base.py:145-159 | an html fence after plain text yields its stripped body as the html part |
| Base.ExtractCssRoundTrip | app/services/workflow_nodes/base.py:146-154 | a css fence after plain text yields its stripped body as the css part |
| Base.ExtractCssMissing | app/services/workflow_nodes/base.py:154 | without a css fence the css part is the extraction-error comment |
| Base.ExtractJsPreference | app/services/workflow_nodes/base.py:147-155 | the script part is the "```javascript" body, else the "```js" body, else the error comment |
| Base.ExtractSuccessCases | app/services/workflow_nodes/base.py:159-166 | success holds exactly when the html part is non-empty, the text holds an html tag, or both a css and a script fence exist |
| Base.EmptyHtmlFenceFails | app/services/workflow_nodes/base.py:153-166 | an html fence with an empty body, no css fence and no tag is not a success although a fence was found |
| Base.EmptyHtmlFenceExample | app/services/workflow_nodes/base.py:153-166 | the concrete response "```html```" is reported as a failure |
| Base.NoAngleNoTag | app/services/workflow_nodes/base.py:164 | a text without '<' never counts as holding an html tag |
| Base.NoPlaceholderRemains | app/services/workflow_nodes/base.py:122-130 | after the three replacements no day, month or year placeholder is left in the prompt |
| Base.ReplaceDatePlaceholders | app/services/workflow_nodes/base.py:122-130 | the prompt with the day, month and year tags replaced; its properties are NoPlaceholderRemains, DatePlainPrefix and the three tag lemmas |
| Base.DatePlainPrefix | app/services/workflow_nodes/base.py:122-130 | text without placeholders in front of the prompt passes through the substitution unchanged |
| Base.DateDayTag | app/services/workflow_nodes/base.py:126 | a leading day placeholder becomes the decimal day |
| Base.DateMonthTag | app/services/workflow_nodes/base.py:127 | a leading month placeholder becomes the decimal month |
| Base.DateYearTag | app/services/workflow_nodes/base.py:128 | a leading year placeholder becomes the decimal year |
| Base.MergeRealtime | app/services/workflow_nodes/base.py:220-260 | a timed-out call gives None; both market calls failing gives the fixed fallback record; any record not tagged real-time is that fallback |
| Base.MergeRightBiased | app/services/workflow_nodes/base.py:252-257 | the merged record holds exactly the keys of the three sources plus "data_source", later sources win, and it is tagged "real_time" |
| Base.FngErrorGivesNeutral | app/services/workflow_nodes/base.py:235-236 | an F&G error puts the neutral reading 50 in the record |
| Verdicts.CheckReportValidation | app/services/workflow_nodes/base.py:176-197 | an empty text is UNKNOWN; PASS exactly when the pass marker occurs; FAIL exactly when only the fail marker occurs |
| Verdicts.PassMarkerAnywhere | app/services/workflow_nodes/base.py:189-193 | the marker followed by any whitespace and "PASS", anywhere in the text, gives PASS |
| Verdicts.VerdictIgnoresCase | app/services/workflow_nodes/base.py:189-190 | the verdict does not depend on letter case |
| Environment.ReadPrompt | app/services/workflow_nodes/base.py:61-119 | a prompt is available exactly when its file exists and is non-empty, and it is then the file's text |
| Environment.RetryFrom | app/services/workflow_nodes/research_deep.py:64-80 | the three-try loop uses at most three replies, sleeps fewer times than it tries, and never ends on an exception as its answer |
| Environment.Waits | app/services/workflow_nodes/research_deep.py:74-78 | the k-th wait of the loop is k times the base wait |
| Environment.RetryWaits | app/services/workflow_nodes/research_deep.py:74-78 | the loop's sleeps are base, 2·base in that order, one fewer than the calls made unless it answered |
| Environment.RetryGivesUp | app/services/workflow_nodes/research_deep.py:73-80 | three exceptions in a row give up with the last exception after sleeping base and 2·base |
| Environment.RetryAnswers | app/services/workflow_nodes/research_deep.py:65-72 | the first non-exception reply ends the loop with that reply after k sleeps |
| Environment.RetryBrokenClient | app/services/workflow_nodes/create_interface.py:38-56 | a client that cannot be used fails every try without consuming a reply, after sleeping base and 2·base |
| Environment.Env.Generate | app/services/workflow_nodes/research_deep.py:64-80 | the call consumes replies, sleeps and logs the prompt exactly as the retry function says and touches nothing else |
| Environment.Env.Ask | app/services/report_generator.py:96-98 | one call consumes one reply and logs the prompt |
| Environment.Env.Commit | app/services/workflow_nodes/save_database.py:44 | one commit consumes one database outcome |
| Environment.Env.Sleep | app/services/workflow_nodes/research_deep.py:78 | a sleep is appended to the wait log only |
| Environment.Env.Notify | app/services/progress_tracker.py:15-78 | a notification is appended to the event log only |
| ReportStates.ReportState.constructor | app/services/workflow_nodes/base.py:13-58 | the state object starts as the given dictionary snapshot |
| ReportGenerator.GeneratorBlocks | app/services/report_generator.py:53-66 | for a non-empty reply the upload extractor agrees with the scheduler's extractor; an empty reply gives empty html and both error comments |
| ReportGenerator.GeneratorJsPreference | app/services/report_generator.py:57-65 | the script part is the "```javascript" body, else the "```js" body, else the error comment |
| ReportGenerator.GeneratorCssRoundTrip | app/services/report_generator.py:56-64 | a css fence after plain text yields its stripped body |
| ReportGenerator.UnsupportedRefused | app/services/report_generator.py:76-83 | a file that is neither ".docx" nor ".odt" is refused before anything else is consulted |
| ReportGenerator.CreateReportFromContent | app/services/report_generator.py:68-107 | the upload handler as a value: the reader chosen by the extension, the prompt, the rule and the document sent once, and the reply's blocks; its properties are UnsupportedRefused, ReaderByExtension and CreatedMeaning |
| ReportGenerator.ReaderByExtension | app/services/report_generator.py:76-79 | a ".docx" name is read only by the Word reader and any other accepted name only by the OpenDocument reader |
| ReportGenerator.ExtensionsExclusive | app/services/report_generator.py:76-79 | no name ends in both ".docx" and ".odt", so the order of the two tests does not matter |
| ReportGenerator.CreatedMeaning | app/services/report_generator.py:68-107 | a report is returned exactly when the document and the prompt were read and the service answered with a text, and it is the extraction of the reply to prompt, rule and document |
| CreateReport.Stripped | create_report/create_report.py:51-67 | a found block is stripped and a missing one stays missing |
| CreateReport.ExtractBlocks | create_report/create_report.py:51-67 | the three stripped fence bodies of the reply; its properties are ExtractBlocksMeaning and SameFencesAsUpload |
| CreateReport.ExtractBlocksMeaning | create_report/create_report.py:51-67 | a block is None exactly when its fence is missing (for the script, both fences), and otherwise the stripped body, "```javascript" winning |
| CreateReport.SameFencesAsUpload | create_report/create_report.py:51-67 | the upload extractor is this one with missing blocks replaced by "" and the error comments |
| CreateReport.SaveFilesWrites | create_report/create_report.py:70-97 | each report file is written with its block exactly when the block is non-empty, and every other file keeps its content |
| CreateReport.SaveFiles | create_report/create_report.py:70-97 | the report directory after the three conditional writes; its properties are SaveFilesWrites and BlankFenceWritesNothing |
| CreateReport.BlankFenceWritesNothing | create_report/create_report.py:70-97 | a whitespace-only css fence is found but writes no file |
| PrepareData.Prepare | app/services/workflow_nodes/prepare_data.py:10-92 | the node changes the state and the outside world exactly as the prepare step describes |
| PrepareData.PrepareSpec | app/services/workflow_nodes/prepare_data.py:10-92 | the preparation node as a function of the state and the outside world; its properties are the Prepare lemmas below |
| PrepareData.PrepareRest | app/services/workflow_nodes/prepare_data.py:58-92 | after the client is built, the node reads the other two prompts and caches the market data |
| PrepareData.PrepareSucceedsIff | app/services/workflow_nodes/prepare_data.py:15-91 | the node succeeds exactly when the key is usable, the three prompts are read and the client builds |
| PrepareData.PrepareErrors | app/services/workflow_nodes/prepare_data.py:15-76 | the service is never called; success adds no error, and each failure appends one message and reports exactly that message |
| PrepareData.FailOneError | app/services/workflow_nodes/prepare_data.py:17-20 | one failing branch appends one message, reports it and clears success |
| PrepareData.PrepareBadKey | app/services/workflow_nodes/prepare_data.py:16-21 | an unusable key fails before any path, prompt or client is stored |
| PrepareData.PrepareNoResearchPrompt | app/services/workflow_nodes/prepare_data.py:36-42 | an unreadable research prompt stops the node before the client and the later prompts |
| PrepareData.PrepareSuccessState | app/services/workflow_nodes/prepare_data.py:44-91 | on success the date-substituted research prompt, the client and the model are stored, the attempt counter is 0, and market data is None exactly when fetching failed |
| PrepareData.PrepareCounters | app/services/workflow_nodes/prepare_data.py:79 | the node never raises and changes no attempt counter except resetting current_attempt |
| Research.AnswerError | app/services/workflow_nodes/research_deep.py:82-98 | the answer is usable exactly when the loop got a response whose text is non-empty |
| Research.ResearchDeep | app/services/workflow_nodes/research_deep.py:11-132 | the node changes the state and the outside world exactly as the research step describes |
| Research.ResearchSpec | app/services/workflow_nodes/research_deep.py:11-132 | the research node as a function of the state and the outside world; its properties are the Research lemmas below |
| Research.AskModel | app/services/workflow_nodes/research_deep.py:63-124 | the call, the checks of the reply and the verdict, on the shared state |
| Research.ResearchFrame | app/services/workflow_nodes/research_deep.py:14-130 | the node bumps the attempt counter and changes only the verdict, the research text, the errors and the success flag; it never raises or commits |
| Research.AskFrame | app/services/workflow_nodes/research_deep.py:63-130 | the call and its checks change only the verdict, the research text, the errors and the success flag |
| Research.ResearchAnswered | app/services/workflow_nodes/research_deep.py:103-119 | with a usable answer the text and its verdict are stored, and the node succeeds unless the verdict is FAIL |
| Research.ResearchFails | app/services/workflow_nodes/research_deep.py:82-130 | any other outcome appends exactly one message that starts with the attempt number, fails, and keeps the old text and verdict |
| Research.PrefixedError | app/services/workflow_nodes/research_deep.py:127-128 | the appended message starts with the attempt prefix |
| Research.ResearchCalls | app/services/workflow_nodes/research_deep.py:21-80 | the combined prompt is sent once when the prompt is present, at most three calls are made, and the waits are 45 s then 90 s |
| Research.PromptWithoutPlaceholder | app/services/workflow_nodes/research_deep.py:24-37 | a prompt without the data placeholder is sent unchanged |
| Research.EmptyRecordGivesNotice | app/services/workflow_nodes/research_deep.py:25-37 | an empty market record counts as no data and the placeholder becomes the notice |
| Validate.QualityScore | app/services/workflow_nodes/validate_report.py:66-78 | the score the fallback evidently means: the number of the five quality signals present, so at most 5 |
| Validate.ValidateReport | app/services/workflow_nodes/validate_report.py:9-103 | the node changes the state as the validation step as written describes, including its `except` branch, and raises exactly when that step does |
| Validate.ValidateSuccessIffPass | app/services/workflow_nodes/validate_report.py:14-101 | unless it raises, the node leaves a verdict and succeeds exactly when it is PASS; only the verdict, the flag and at most one appended error change (earlier errors kept), and nothing is called |
| Validate.ValidateRaises | app/services/workflow_nodes/validate_report.py:14 | the node raises exactly when the research text was never stored, and then changes nothing |
| Validate.ValidateKeepsVerdict | app/services/workflow_nodes/validate_report.py:27-35 | a PASS or FAIL already stored is kept without re-reading the text |
| Validate.ValidateFallback | app/services/workflow_nodes/validate_report.py:58-101 | as written, a text without a marker never succeeds: a short one ends FAIL with no new error, a long one ends UNKNOWN with exactly one new error |
| Validate.Sum | app/services/workflow_nodes/validate_report.py:78 | Python `sum` over the list: a total between the start and the start plus the length exactly when every item is a bool; otherwise the `int + ` TypeError of a match object or None |
| Validate.QualitySumRaises | app/services/workflow_nodes/validate_report.py:69-78 | as written, the quality sum always raises the TypeError for its third item, a match object or None |
| Validate.IntendedSumIsScore | app/services/workflow_nodes/validate_report.py:66-78 | with `has_numbers` read as a truth value, the sum is the quality score |
| Validate.ValidateParseError | app/services/workflow_nodes/validate_report.py:63-101 | a long text with no stored verdict and no marker ends in the `except` branch: verdict UNKNOWN, flag false, and one message with the attempt prefix, the parse-error text and the TypeError appended |
| Validate.CorrectedFallbackDecides | app/services/workflow_nodes/validate_report.py:63-94 | with the quality score it evidently means, the fallback never leaves UNKNOWN, records no error, and passes exactly a text longer than 2000 characters with at least four signals |
| Validate.ValidateSpec | app/services/workflow_nodes/validate_report.py:9-103 | the node as written, as a function of the state; its properties are ValidateRaises, ValidateSuccessIffPass, ValidateFallback and ValidateParseError |
| Validate.ValidateCorrected | app/services/workflow_nodes/validate_report.py:63-89 | the node with the quality score it evidently means; its property is CorrectedFallbackDecides |
| Validate.ShortReportFails | app/services/workflow_nodes/validate_report.py:63-94 | a text of at most 2000 characters without a PASS marker always fails |
| Validate.DollarAmountIsNumber | app/services/workflow_nodes/validate_report.py:69 | a dollar sign directly before a digit counts as a number |
| Validate.PercentIsNumber | app/services/workflow_nodes/validate_report.py:69 | a digit followed by optional whitespace and a percent sign counts as a number |
| Translate.SplitConcat | app/services/workflow_nodes/translate_content.py:140 | splitting at a separator placed between two texts splits each text on its own |
| Translate.CleanFencedAnswer | app/services/workflow_nodes/translate_content.py:136-145 | a fenced answer loses exactly its opening and closing fence lines |
| Translate.FencedLines | app/services/workflow_nodes/translate_content.py:140-143 | the lines of a fenced answer are the opener, the body's lines and the closer |
| Translate.StripUnchanged | app/services/workflow_nodes/translate_content.py:136 | text that neither starts nor ends with whitespace is left alone by strip |
| Translate.TranslateWithAi | app/services/workflow_nodes/translate_content.py:83-160 | the helper returns and changes the outside world exactly as its specification function says: None for blank content, a raised error for a missing template, otherwise the cleaned answer or None |
| Translate.TranslateWithAiSpec | app/services/workflow_nodes/translate_content.py:83-160 | the translation helper's answer and effects; its properties are TranslateWithAiCalls and TranslateWithAiQuiet |
| Translate.SetDefault | app/services/workflow_nodes/translate_content.py:56-61 | setdefault makes the key exist and keeps what it held |
| Translate.TranslateContent | app/services/workflow_nodes/translate_content.py:10-80 | the node changes the state and the outside world exactly as the translation step describes |
| Translate.TranslateSpec | app/services/workflow_nodes/translate_content.py:10-80 | the translation node as a function of the state and the outside world; its properties are TranslateNeverFails, TranslateStores and TranslateCalls |
| Translate.TranslateNeverFails | app/services/workflow_nodes/translate_content.py:24-80 | the node records no error, keeps the success flag, reports nothing, and changes only the two translation keys, which both exist afterwards |
| Translate.TranslateStores | app/services/workflow_nodes/translate_content.py:52-56 | the English HTML is a non-empty translation of existing HTML, or what the key held before |
| Translate.TranslateCalls | app/services/workflow_nodes/translate_content.py:32-158 | without HTML, client or model nothing is called; otherwise at most three calls are made with the filled template, waiting 10 s then 20 s |
| Translate.TranslateWithAiCalls | app/services/workflow_nodes/translate_content.py:98-158 | the helper makes at most three calls with the filled template, waiting 10 s then 20 s |
| Save.Pow2 | app/services/workflow_nodes/save_database.py:30-66 | the backoff wait is at least one second |
| Save.Settle | app/services/workflow_nodes/save_database.py:46-98 | a save stores the id, sets success and reports completion; a failure appends one message and reports it; the model is never called |
| Save.AfterTwice | app/services/workflow_nodes/save_database.py:25-70 | accounting for earlier commits and sleeps composes |
| Save.CommitLoop | app/services/workflow_nodes/save_database.py:25-99 | the loop's result, commits and sleeps are those of the commit specification, and it changes nothing else |
| Save.SaveWithRetry | app/services/workflow_nodes/save_database.py:22-99 | the helper changes the state and the outside world exactly as the save specification says |
| Save.SaveDatabase | app/services/workflow_nodes/save_database.py:102-149 | the node measures the report, picks the number of tries and runs the save |
| Save.SaveSpec | app/services/workflow_nodes/save_database.py:102-149 | the saving node as a function of the state and the outside world; its properties are SslErrorsExhaustTries and the retry lemmas |
| Save.RetryStep | app/services/workflow_nodes/save_database.py:53-70 | one retried failure costs one commit and sleeps before the next try |
| Save.RetriedPrefix | app/services/workflow_nodes/save_database.py:25-70 | after k retried failures the loop goes on from try k, having made k commits and the backoff sleeps |
| Save.StopAt | app/services/workflow_nodes/save_database.py:44-92 | a try that is not retried ends the loop after k+1 commits with that try's outcome |
| Save.CommitTries | app/services/workflow_nodes/save_database.py:25-99 | a loop with at least one try commits between one and max_retries times and never reaches the fall-through message |
| Save.NoTries | app/services/workflow_nodes/save_database.py:94-99 | with no tries the loop ends with the fall-through message and no commit |
| Save.NoRetryWithoutSsl | app/services/workflow_nodes/save_database.py:61-92 | a first outcome that is not an SSL error is the only commit, and the save succeeds exactly when it committed |
| Save.ExhaustTries | app/services/workflow_nodes/save_database.py:65-78 | when every try fails with a retried error, all tries are made and the last error is recorded with the number of tries |
| Save.SslErrorsExhaustTries | app/services/workflow_nodes/save_database.py:105-114 | a report over 50000 characters gets five tries and a smaller one three; all failing with SSL errors records and reports the last one |
| Save.ThreeRetriedWaits | app/services/workflow_nodes/save_database.py:28-69 | three retried errors sleep 1, 2, 2, 4, 4 seconds, because the retry branch and the next try both sleep |
| Translate.AskForTranslation | app/services/workflow_nodes/translate_content.py:125-160 | the retry loop returns and changes the outside world as its specification says: the cleaned answer when the reply has text, otherwise None |
| Translate.AskTranslationCalls | app/services/workflow_nodes/translate_content.py:125-158 | the loop sends the one prompt, at most three times, waiting 10 s and then 20 s at most |
| Translate.TranslateWithAiQuiet | app/services/workflow_nodes/translate_content.py:83-160 | the helper records no progress event and commits nothing |
| Components.ExtractHtml | app/services/workflow_nodes/create_interface_components.py:256-270 | the extracted HTML has no whitespace at either end |
| Components.ExtractJavascript | app/services/workflow_nodes/create_interface_components.py:273-286 | the extracted script has no whitespace at either end |
| Components.ExtractCss | app/services/workflow_nodes/create_interface_components.py:289-299 | the extracted style sheet has no whitespace at either end |
| Components.ExtractRoundTrip | app/services/workflow_nodes/create_interface_components.py:256-299 | a fence after backtick-free text is found by each extractor and its body comes back stripped |
| Components.JavascriptPreferred | app/services/workflow_nodes/create_interface_components.py:279-286 | "```js" is read only when no "```javascript" fence exists; with neither the script is "" |
| Components.HtmlWithoutFence | app/services/workflow_nodes/create_interface_components.py:262-268 | a response with tags and no html fence is kept whole, but a blank html fence hides the tags |
| Components.Produce | app/services/workflow_nodes/create_interface_components.py:60-89 | any content the node stores is non-empty |
| Components.CreateComponent | app/services/workflow_nodes/create_interface_components.py:11-253 | each component node changes the state and the outside world exactly as its specification function says |
| Components.ComponentSpec | app/services/workflow_nodes/create_interface_components.py:11-253 | one component node as a function of the part, the state and the outside world; its properties are ComponentFrame, ComponentSucceedsIff, ComponentOutcome and ComponentCalls |
| Components.ComponentFrame | app/services/workflow_nodes/create_interface_components.py:14-90 | the node bumps its own counter, from 0 when missing, and changes only its content, the errors and the success flag |
| Components.ComponentSucceedsIff | app/services/workflow_nodes/create_interface_components.py:23-90 | the node succeeds exactly when the prompt is read and the model answers with text; for HTML that text must also yield HTML |
| Components.ComponentOutcome | app/services/workflow_nodes/create_interface_components.py:24-90 | success stores non-empty content and reports nothing; failure appends one message and reports the same message |
| Components.ComponentCalls | app/services/workflow_nodes/create_interface_components.py:33-70 | the model is asked at most three times with one request, waiting 20 s then 40 s; script and style requests carry the HTML built so far |
| LegacyNodes.InterfaceAnswer | app/services/workflow_nodes/create_interface.py:59-74 | the answer is used exactly when the model replied with non-empty text, and it is then that text unchanged |
| LegacyNodes.CreateInterface | app/services/workflow_nodes/create_interface.py:10-78 | the node changes the state and the outside world exactly as its specification function says, and raises exactly when it does |
| LegacyNodes.InterfaceSpec | app/services/workflow_nodes/create_interface.py:10-78 | the interface node as a function of the state and the outside world; its properties are the Interface lemmas below |
| LegacyNodes.InterfaceFrame | app/services/workflow_nodes/create_interface.py:13-75 | the counter rises by one, from 0 when missing, and only the interface text, the errors and the success flag change besides |
| LegacyNodes.InterfaceOutcome | app/services/workflow_nodes/create_interface.py:38-76 | unless the request raises, the node succeeds exactly when the model answers with text, storing it unchanged; otherwise one message is appended and reported and the old text is kept |
| LegacyNodes.InterfaceRaises | app/services/workflow_nodes/create_interface.py:21 | the node raises exactly when the prompt or the research text key is missing, having only bumped its counter |
| LegacyNodes.InterfaceGivesUp | app/services/workflow_nodes/create_interface.py:38-57 | three exceptions end the node with the fixed message after waiting 20 s and 40 s |
| LegacyNodes.InterfaceCalls | app/services/workflow_nodes/create_interface.py:21-57 | at most three calls with one request, waiting 20 s then 40 s |
| LegacyNodes.ExtractCode | app/services/workflow_nodes/extract_code.py:8-50 | the node changes the state exactly as its specification function says |
| LegacyNodes.ExtractSpec | app/services/workflow_nodes/extract_code.py:8-50 | the extraction node as a function of the state; its properties are the Extract and Adopt lemmas below |
| LegacyNodes.AdoptBlocks | app/services/workflow_nodes/extract_code.py:22-48 | adopting the extractor's blocks on the shared state |
| LegacyNodes.AdoptOutcome | app/services/workflow_nodes/extract_code.py:25-46 | with interface text the node succeeds exactly when the extractor does, then writes all three parts stripped with non-empty CSS and script; otherwise it appends one message and keeps the parts |
| LegacyNodes.DefaultsTrimmed | app/services/workflow_nodes/extract_code.py:37-41 | both defaults are non-empty and carry no surrounding whitespace |
| LegacyNodes.ExtractOutcome | app/services/workflow_nodes/extract_code.py:14-30 | the node succeeds exactly when there is interface text the extractor accepts; without interface text it appends its own message only |
| LegacyNodes.ExtractFrame | app/services/workflow_nodes/extract_code.py:8-50 | the node changes only the three parts, the errors and the success flag, and never raises, calls the model or commits |
| LegacyNodes.StripTrimmed | app/services/workflow_nodes/extract_code.py:32-34 | what strip returns has no whitespace at either end |
| LegacyNodes.ExtractWithoutHtml | app/services/workflow_nodes/extract_code.py:22-46 | css and js fences without any html still succeed and leave the HTML part empty |
| Graph.RunWithinPotential | app/services/report_workflow.py:129-136 | when every step lowers a potential, a run whose budget covers it never exhausts the budget and executes at most that many nodes |
| Graph.RunStaysIn | app/services/report_workflow.py:129-136 | a run starting where a closed invariant holds never raises, and the invariant holds at END |
| Routing.ShouldRetryOrContinue | app/services/workflow_nodes/routing.py:8-20 | the router returns one of continue, retry and end |
| Routing.ShouldRetryInterfaceOrContinue | app/services/workflow_nodes/routing.py:23-36 | the router returns one of continue, retry_interface and end |
| Routing.ShouldRetryPartOrContinue | tests/test_workflow_v2.py:47-80 | each component router returns continue, its own retry label, or end |
| Routing.ValidationRouting | app/services/workflow_nodes/routing.py:8-20 | PASS continues whatever the counters; any other verdict ends once current_attempt reaches max_attempts and retries before |
| Routing.InterfaceRouting | app/services/workflow_nodes/routing.py:23-36 | success continues; otherwise a missing counter counts as 0, three or more attempts end, fewer retry |
| Routing.ValidationRoutingExamples | tests/test_workflow_structure.py:141-160 | the three routing cases the structure test checks |
| Routing.ComponentRoutingExamples | tests/test_workflow_v2.py:47-80 | the component routing cases the second workflow's test checks |
| ReportWorkflow.StepsFollowTable | app/services/report_workflow.py:33-63 | every step follows a declared edge, and only validation can fail to route, when no verdict was ever stored |
| ReportWorkflow.TableEdgesTaken | app/services/report_workflow.py:36-63 | every declared edge is taken from some state |
| ReportWorkflow.StepLowersPotential | app/services/report_workflow.py:33-63 | every step that keeps the counter discipline lowers the remaining-node potential |
| ReportWorkflow.NodeKeeps | app/services/report_workflow.py:25-30 | every registered node keeps the counter discipline |
| ReportWorkflow.NodesLower | app/services/report_workflow.py:19-65 | every step of the first workflow lowers the potential |
| ReportWorkflow.ShapeCases | app/services/report_workflow.py:138-167 | success exactly when the run ended with the flag set and a non-zero id, with no errors; otherwise the final errors or the one exception message, and the tracker is told of the failure exactly then |
| ReportWorkflow.InitialRunBounded | app/services/report_workflow.py:94-136 | from the initial state at most 2·max(1, max_attempts)+8 nodes run, so up to eight attempts never hit the step limit |
| ReportWorkflow.PreparePresent | app/services/workflow_nodes/prepare_data.py:36-44 | preparation stores the research prompt or keeps it, and never touches the research text |
| ReportWorkflow.ResearchPresent | app/services/workflow_nodes/research_deep.py:21-106 | research stores its text or keeps the old one, and never touches the prompt |
| ReportWorkflow.SafeStep | app/services/report_workflow.py:19-65 | from a safe stage no node raises, the router does not fail, and the next stage is safe |
| ReportWorkflow.SafeClosed | app/services/report_workflow.py:19-65 | the safety invariant is closed under the graph's steps |
| ReportWorkflow.RunIsSafe | app/services/report_workflow.py:94-136 | no exception escapes a run from the initial state, and at END the interface counter is at most 3 |
| ReportWorkflow.StuckStep | app/services/report_workflow.py:36-48 | with an unusable key the run only circles between research and validation |
| ReportWorkflow.StuckClosed | app/services/report_workflow.py:36-48 | the unusable-key invariant is closed under the graph's steps |
| ReportWorkflow.BadKeyFails | app/services/report_workflow.py:94-156 | an unusable key gives a failed report with no id and at least one error, the key's message first when the run reaches END |
| ReportWorkflow.BadKeyStart | app/services/workflow_nodes/prepare_data.py:16-21 | preparation fails on the key and the run continues stuck at research |
| WorkflowV2.StepsFollowTable | app/services/report_workflow_v2.py:42-99 | every step follows a declared edge, and only validation can fail to route |
| WorkflowV2.TableEdgesTaken | app/services/report_workflow_v2.py:45-99 | every declared edge is taken from some state |
| WorkflowV2.BackEdges | app/services/report_workflow_v2.py:50-96 | the only backward edges are validation's retry of research and each component's retry of itself; nothing returns to preparation |
| WorkflowV2.UnconditionalEdges | app/services/report_workflow_v2.py:45-99 | preparation, research, translation and saving go on unconditionally |
| WorkflowV2.StepLowersPotential | app/services/report_workflow_v2.py:42-99 | every step that keeps the counter discipline lowers the potential |
| WorkflowV2.NodesLower | app/services/report_workflow_v2.py:25-101 | every step of the second workflow lowers the potential |
| WorkflowV2.NodeKeeps | app/services/report_workflow_v2.py:31-39 | every registered node keeps the counter discipline |
| WorkflowV2.InitialRunBounded | app/services/report_workflow_v2.py:141-157 | from the initial state at most 2·max(1, max_attempts)+13 nodes run, so up to six attempts stay within the step limit |
| WorkflowV2.ShapeCases | app/services/report_workflow_v2.py:159-213 | the short success form exactly for a saved report with a non-zero id; an exception gives the long form with success false, one message, verdict ERROR, empty contents and zero counters |
| WorkflowV2.BadKeyCrashes | app/services/report_workflow_v2.py:141-213 | with an unusable key validation raises on the missing research text, so the caller gets the exception form |
| ProgressTracking.PercentBounds | app/services/progress_tracker.py:38 | between no step and all seven the percentage stays within 0..100 and never falls as the step grows; the last step gives exactly 100 |
| ProgressTracking.StepPercentages | app/services/progress_tracker.py:21-38 | the eight step values read 0, 14, 28, 42, 57, 71, 85 and 100 percent under truncation |
| ProgressTracking.OperationsKeepWellFormed | app/services/progress_tracker.py:15-77 | every operation keeps every record announcing seven steps |
| ProgressTracking.UnknownSessionUnchanged | app/services/progress_tracker.py:34-87 | updates to a session that was never started change nothing; the lookup is empty and nothing is emitted |
| ProgressTracking.OtherSessionsUnchanged | app/services/progress_tracker.py:15-77 | every operation on one session leaves every other session's record alone |
| ProgressTracking.UpdatesOnKnownSession | app/services/progress_tracker.py:30-77 | a step update sets the step and its percentage and keeps status and start time; a sub-step changes only the details; completion fills the bar with the status set by success; an error keeps step and percentage |
| ProgressTracking.StartStepComplete | app/services/progress_tracker.py:15-62 | start, a step and a successful completion leave the record completed at 100 percent with the report id |
| ProgressTracking.ProgressTracker.constructor | app/services/progress_tracker.py:10-13 | a tracker starts with no sessions and nothing emitted |
| ProgressTracking.ProgressTracker.StartProgress | app/services/progress_tracker.py:15-28 | the session's record is replaced by a fresh one and emitted |
| ProgressTracking.ProgressTracker.UpdateStep | app/services/progress_tracker.py:30-41 | the table becomes the stepped table and the record is emitted |
| ProgressTracking.ProgressTracker.UpdateSubstep | app/services/progress_tracker.py:43-49 | the table becomes the sub-stepped table and the record is emitted |
| ProgressTracking.ProgressTracker.CompleteProgress | app/services/progress_tracker.py:51-66 | the table becomes the finished table, the record is emitted, and a cleanup is scheduled exactly when a socket is attached |
| ProgressTracking.ProgressTracker.ErrorProgress | app/services/progress_tracker.py:68-77 | the table becomes the faulted table and the record is emitted |
| ProgressTracking.ProgressTracker.GetProgress | app/services/progress_tracker.py:79-82 | the record is returned exactly when the session exists, and nothing changes |
| ProgressTracking.ProgressTracker.CleanupSession | app/services/progress_tracker.py:101-106 | the session's record is removed and nothing else changes |
| ProgressTracking.ProgressTracker.EmitProgress | app/services/progress_tracker.py:84-99 | one copy of the record goes to the session's room when it exists and a socket is attached |
| LogManagement.Added | app/static/js/modules/log-manager.js:15-31 | the new entry comes first, followed by the previous entries in order, cut to fifty |
| LogManagement.Reversed | app/static/js/modules/log-manager.js:40-45 | inserting each entry before the first child shows the log in reverse |
| LogManagement.AddKeepsNewest | app/static/js/modules/log-manager.js:23-28 | a log of at most fifty entries stays at most fifty; adding to a full log drops exactly the oldest |
| LogManagement.AddedInOrder | app/static/js/modules/log-manager.js:23 | two additions with room for both put both in front, the later first |
| LogManagement.LogManager.constructor | app/static/js/modules/log-manager.js:3 | the log starts empty with nothing shown |
| LogManagement.LogManager.Add | app/static/js/modules/log-manager.js:15-31 | the log becomes the added log and the container, when present, shows it reversed |
| LogManagement.LogManager.UpdateDisplay | app/static/js/modules/log-manager.js:33-46 | the container, when present, shows the log reversed; the log itself is unchanged |
| LogManagement.LogManager.Clear | app/static/js/modules/log-manager.js:48-52 | the log is left holding only the cleared notice |
| LogManagement.LogManager.Init | app/static/js/modules/log-manager.js:5-13 | two entries are added, the newer first, and the reminder waits on its timer |
| LogManagement.LogManager.Remind | app/static/js/modules/log-manager.js:10-12 | the timer adds the reminder entry once |
| LogManagement.ReversedSnoc | app/static/js/modules/log-manager.js:40-45 | an older entry added at the end of the log appears on top of the display |
| LogManagement.ShownOldestFirst | app/static/js/modules/log-manager.js:39-45 | the container shows the oldest entry on top and the newest at the bottom |
| WebSocketServer.HandlersKeepConsistent | app/websocket/manager.py:44-144 | connecting, subscribing, unsubscribing and pinging keep every recorded subscription listed among the channel's subscribers |
| WebSocketServer.RemovalsKeepConsistent | app/websocket/manager.py:66-191 | disconnecting and the stale cleanup keep the tables consistent |
| WebSocketServer.DisconnectLeavesRooms | app/websocket/manager.py:66-80 | disconnecting removes the entry and takes the session out of exactly its subscribed channels; other sessions are untouched |
| WebSocketServer.SubscribeUnsubscribe | app/websocket/manager.py:82-135 | subscribing lists the session under the channel and records it for a connected session; unsubscribing undoes both and is idempotent |
| WebSocketServer.SweepKeepsFresh | app/websocket/manager.py:176-191 | the cleanup keeps exactly the connections pinged within two minutes and leaves subscriber sets, and so broadcasts, alone |
| WebSocketServer.Sweep | app/websocket/manager.py:176-191 | the tables after one cleanup pass; its properties are SweepKeepsFresh, RemovalsKeepConsistent and PingSavesConnection |
| WebSocketServer.PingSavesConnection | app/websocket/manager.py:137-185 | a ping at the moment of the cleanup always saves the connection |
| WebSocketServer.LeaveOneMore | app/websocket/manager.py:74-78 | leaving one more channel extends the set of channels left |
| WebSocketServer.WebSocketManager.constructor | app/websocket/manager.py:14-22 | both tables start empty |
| WebSocketServer.WebSocketManager.HandleConnect | app/websocket/manager.py:44-64 | the tables become the connected tables and the client is welcomed |
| WebSocketServer.WebSocketManager.HandleDisconnect | app/websocket/manager.py:66-80 | the tables become the disconnected tables |
| WebSocketServer.WebSocketManager.HandleSubscribe | app/websocket/manager.py:82-108 | a missing channel is refused with the error reply and no change; otherwise the tables become the subscribed tables |
| WebSocketServer.WebSocketManager.HandleUnsubscribe | app/websocket/manager.py:110-135 | a missing channel is refused with the error reply and no change; otherwise the tables become the unsubscribed tables |
| WebSocketServer.WebSocketManager.HandlePing | app/websocket/manager.py:137-144 | the session's ping time is refreshed and a pong is returned |
| WebSocketServer.WebSocketManager.BroadcastToChannel | app/websocket/manager.py:146-150 | one broadcast is emitted exactly when the channel has a subscriber, and the tables do not change |
| WebSocketServer.WebSocketManager.CleanupStaleConnections | app/websocket/manager.py:176-191 | one pass of the cleanup leaves the swept tables |
| WebSocketClient.Inserted | app/static/js/modules/websocket-client.js:165-171 | Set.add: membership gains exactly the new element, the existing order is kept, and distinctness is preserved |
| WebSocketClient.Removed | app/static/js/modules/websocket-client.js:179-185 | Set.delete: membership loses exactly that element and nothing changes when it is absent |
| WebSocketClient.RemovedNoDup | app/static/js/modules/websocket-client.js:179-185 | deleting from a set keeps its elements distinct |
| WebSocketClient.Pow2AtLeast32 | app/static/js/modules/websocket-client.js:288 | from the fifth attempt on the doubling factor is at least 32 |
| WebSocketClient.Pow2Positive | app/static/js/modules/websocket-client.js:288 | the doubling factor is at least one |
| WebSocketClient.DelaySchedule | app/static/js/modules/websocket-client.js:288 | the allowed attempts wait 1, 2, 4, 8 and 16 seconds; every delay lies between one second and the 30-second ceiling, reached from the fifth attempt |
| WebSocketClient.Resubscriptions | app/static/js/modules/websocket-client.js:191-195 | one subscribe message per stored channel, in the set's order |
| WebSocketClient.ReschedulePlan | app/static/js/modules/websocket-client.js:281-297 | below the cap one new timer is armed with the delay for the current count and the count rises; at the cap the listeners are told and nothing is armed |
| WebSocketClient.OneFailedRetry | app/static/js/modules/websocket-client.js:269-296 | the latest timer firing with the library failing to load arms one more timer and counts one more attempt, or gives up at the cap |
| WebSocketClient.RetriesGiveUp | app/static/js/modules/websocket-client.js:281-297 | failed attempts keep re-arming until five are counted; the next failure gives up and arms no timer |
| WebSocketClient.ConnectResubscribes | app/static/js/modules/websocket-client.js:61-74 | a successful connection resets the count, starts pinging and sends a subscribe for every stored channel |
| WebSocketClient.SubscriptionsKept | app/static/js/modules/websocket-client.js:162-172 | subscribe records the channel whether or not connected and emits only when connected |
| WebSocketClient.UnsubscriptionsKept | app/static/js/modules/websocket-client.js:177-186 | unsubscribe drops the channel in both states and emits only when connected |
| WebSocketClient.UnsubscribeUndoes | app/static/js/modules/websocket-client.js:162-186 | unsubscribing undoes a subscription to a channel that was not stored before |
| WebSocketClient.RemovedLast | app/static/js/modules/websocket-client.js:179-185 | removing an element appended to a sequence without it gives the sequence back |
| WebSocketClient.RemoverRemovesOnlyThat | app/static/js/modules/websocket-client.js:200-214 | the remover onMessage returns removes that handler from that event only; register-then-remove restores every event's handlers |
| WebSocketClient.ClosedStaysClosed | app/static/js/modules/websocket-client.js:302-322 | after disconnect no error or drop arms a timer or counts an attempt, subscriptions, handlers and listeners are empty, and a firing timer arms no new one |
| WebSocketClient.EarlierTimerOutlivesClose | app/static/js/modules/websocket-client.js:293-308 | two errors arm two timers and disconnect cancels only the latest |
| WebSocketClient.EventsKeepValid | app/static/js/modules/websocket-client.js:29-81 | connecting and the connect and error events keep the client's fields consistent |
| WebSocketClient.DropKeepsValid | app/static/js/modules/websocket-client.js:84-96 | a drop for any reason keeps the fields consistent |
| WebSocketClient.FiredKeepsValid | app/static/js/modules/websocket-client.js:293-296 | a firing timer keeps the fields consistent |
| WebSocketClient.OperationsKeepValid | app/static/js/modules/websocket-client.js:200-322 | registering and removing handlers, the ping tick and disconnect keep the fields consistent |
| WebSocketClient.WebSocketClientObject.constructor | app/static/js/modules/websocket-client.js:6-24 | the client starts disconnected with no socket, timers, subscriptions, handlers or listeners |
| WebSocketClient.WebSocketClientObject.Notify | app/static/js/modules/websocket-client.js:231-239 | every current listener is notified once |
| WebSocketClient.WebSocketClientObject.ScheduleReconnect | app/static/js/modules/websocket-client.js:281-297 | the client moves to the rescheduled state |
| WebSocketClient.WebSocketClientObject.HandleConnectionError | app/static/js/modules/websocket-client.js:269-276 | the client moves to the error state |
| WebSocketClient.WebSocketClientObject.Connect | app/static/js/modules/websocket-client.js:29-54 | nothing when already connected; otherwise a socket, or the error path when the library fails to load |
| WebSocketClient.WebSocketClientObject.OnConnect | app/static/js/modules/websocket-client.js:61-74 | the client moves to the connected state |
| WebSocketClient.WebSocketClientObject.ResubscribeToChannels | app/static/js/modules/websocket-client.js:191-195 | one subscribe is emitted per stored channel and nothing else changes |
| WebSocketClient.WebSocketClientObject.OnConnectError | app/static/js/modules/websocket-client.js:77-81 | the client moves to the error state |
| WebSocketClient.WebSocketClientObject.OnDisconnect | app/static/js/modules/websocket-client.js:84-96 | the client moves to the dropped state |
| WebSocketClient.WebSocketClientObject.OnWelcome | app/static/js/modules/websocket-client.js:99-105 | the client id is kept and stored, nothing else changes |
| WebSocketClient.WebSocketClientObject.OnPong | app/static/js/modules/websocket-client.js:117-119 | the last ping time is kept, nothing else changes |
| WebSocketClient.WebSocketClientObject.FireReconnect | app/static/js/modules/websocket-client.js:293-296 | the timer is removed and the client connects again |
| WebSocketClient.WebSocketClientObject.Tick | app/static/js/modules/websocket-client.js:249-253 | a ping is emitted only while connected |
| WebSocketClient.WebSocketClientObject.HandleMessage | app/static/js/modules/websocket-client.js:143-157 | every handler registered for the event is called in order, the throwing ones fail without stopping the rest, and nothing changes |
| WebSocketClient.WebSocketClientObject.Subscribe | app/static/js/modules/websocket-client.js:162-172 | the client moves to the subscribed state |
| WebSocketClient.WebSocketClientObject.Unsubscribe | app/static/js/modules/websocket-client.js:177-186 | the client moves to the unsubscribed state |
| WebSocketClient.WebSocketClientObject.OnMessage | app/static/js/modules/websocket-client.js:200-206 | the handler is added to the event's handlers |
| WebSocketClient.WebSocketClientObject.RemoveHandler | app/static/js/modules/websocket-client.js:208-213 | the handler is removed from the event's handlers |
| WebSocketClient.WebSocketClientObject.OnConnectionChange | app/static/js/modules/websocket-client.js:219-221 | the listener is added |
| WebSocketClient.WebSocketClientObject.RemoveListener | app/static/js/modules/websocket-client.js:223-225 | the listener is removed |
| WebSocketClient.WebSocketClientObject.ClearReconnect | app/static/js/modules/websocket-client.js:305-308 | only the timer the latest id names is cancelled |
| WebSocketClient.WebSocketClientObject.Disconnect | app/static/js/modules/websocket-client.js:302-322 | the client moves to the closed state |
| WebSocketClient.WebSocketClientObject.Forget | app/static/js/modules/websocket-client.js:317-319 | subscriptions, handlers and listeners are emptied and nothing else changes |
| ProgressView.Unstamped | app/static/js/modules/progress-tracker.js:72-127 | a leading `[hh:mm:ss]` stamp and the blanks after it are removed, and any other text is left alone; the result is never longer |
| ProgressView.LogType | app/static/js/modules/progress-tracker.js:209-220 | success when a success marker occurs; error only when no success marker and an error marker occurs; info for warning or topic markers; otherwise step-complete. Each holds in both directions |
| ProgressView.LogLine | app/static/js/modules/progress-tracker.js:126-150 | a line exactly for step and detail entries: a step gets the info class and its step name; a detail gets the icon prefix and the class its detail message determines |
| ProgressView.Trimmed | app/static/js/modules/progress-tracker.js:112-115 | at most twenty lines are kept |
| ProgressView.LineIdsCons | app/static/js/modules/progress-tracker.js:99-110 | the ids a queue contributes are those of its first line-making entry and of the rest |
| ProgressView.AbsorbedIds | app/static/js/modules/progress-tracker.js:99-110 | processing a queue remembers exactly the ids of its line-making entries, besides those already seen |
| ProgressView.AbsorbedOncePerId | app/static/js/modules/progress-tracker.js:99-110 | one line is appended per newly remembered id |
| ProgressView.RepeatAddsNothing | app/static/js/modules/progress-tracker.js:99-110 | processing the same queue again appends no line |
| ProgressView.TrimKeepsNewest | app/static/js/modules/progress-tracker.js:112-115 | trimming keeps the newest twenty lines in order |
| ProgressView.UndatedRecordIgnored | app/static/js/modules/progress-tracker.js:52-55 | a record without `last_update` is never newer than what was shown |
| ProgressView.RelabelledAbsent | app/static/js/modules/progress-tracker.js:171-205 | a mapping table changes nothing in a text where none of its keys occurs |
| ProgressView.RelabelledConcat | app/static/js/modules/progress-tracker.js:171-180 | running two tables one after the other is running their concatenation |
| ProgressView.LongKeysSkip | app/static/js/modules/progress-tracker.js:171-180 | keys longer than the text leave it alone |
| ProgressView.MissingChar | app/static/js/modules/progress-tracker.js:172-177 | a key holding a character the text lacks does not occur in it |
| ProgressView.RelabelWhole | app/static/js/modules/progress-tracker.js:172-173 | a text that is a key becomes that key's value |
| ProgressView.StepKeepsPrepareLabel | app/static/js/modules/progress-tracker.js:154-161 | no later workflow key occurs in the label of "prepare_data" |
| ProgressView.RelabelledFixed | app/static/js/modules/progress-tracker.js:171-180 | a table none of whose entries changes the text leaves it alone |
| ProgressView.RelabelledAround | app/static/js/modules/progress-tracker.js:171-180 | a table in which only entry k changes the text, turning it into e, yields e |
| ProgressView.PrepareDataLabel | app/static/js/modules/progress-tracker.js:154-175 | the workflow table turns "prepare_data" into its label |
| ProgressView.LegacyKeepsPrepareLabel | app/static/js/modules/progress-tracker.js:163-166 | the first two legacy keys do not occur in that label |
| ProgressView.LegacyRelabelsPrepareLabel | app/static/js/modules/progress-tracker.js:166-180 | the legacy key "Chuẩn bị dữ liệu" occurs in that label, and its value prefixes the icon again |
| ProgressView.LegacyKeepsDoubledLabel | app/static/js/modules/progress-tracker.js:167-169 | the last three legacy keys leave the doubled label alone |
| ProgressView.StepNameAsWrittenRelabelsLabel | app/static/js/modules/progress-tracker.js:152-182 | as written, a name the workflow table labels is relabelled by a legacy key occurring in the label; for "prepare_data" the icon shows twice |
| ProgressView.StepNameLabelsOnce | app/static/js/modules/progress-tracker.js:152-182 | as intended, "prepare_data" is shown as "📋 Chuẩn bị dữ liệu", once |
| ProgressView.SessionLabel | app/static/js/modules/progress-tracker.js:273 | the label holds the first eight characters of the session id, or all of a shorter id, between "Session: " and "..." |
| ProgressView.OrElse | app/static/js/modules/progress-tracker.js:247-253 | a present non-empty text is kept; a missing or empty one falls back |
| ProgressView.LoggedKeepsTwenty | app/static/js/modules/progress-tracker.js:92-124 | after processing the log, at most twenty lines remain and exactly the new line ids are remembered |
| ProgressView.OperationsKeepValid | app/static/js/modules/progress-tracker.js:13-69 | start, stop, hide, cancel, a poll and scrolling keep at most twenty lines plus the final one, and keep a running interval whenever one is set |
| ProgressView.RefreshedKeepsTracking | app/static/js/modules/progress-tracker.js:56-60 | refreshing the bar and details leaves the session, polling, log and overlay alone and records the update time |
| ProgressView.LoggedKeepsTracking | app/static/js/modules/progress-tracker.js:92-124 | processing the log leaves the session, polling, update time and overlay alone |
| ProgressView.CompletedKeepsTracking | app/static/js/modules/progress-tracker.js:222-243 | completion appends one success line and shows the success overlay with the completion message |
| ProgressView.FailedKeepsTracking | app/static/js/modules/progress-tracker.js:245-266 | an error appends one error line and shows the error overlay with the details or the default message |
| ProgressView.UpdatedKeepsValid | app/static/js/modules/progress-tracker.js:50-69 | an update keeps at most the final line beyond twenty |
| ProgressView.UpdateOnlyWhenNewer | app/static/js/modules/progress-tracker.js:50-56 | a record not newer than the last one shown changes nothing; a newer one becomes the last one shown; the session and polling are never touched |
| ProgressView.RepeatedRecordIgnored | app/static/js/modules/progress-tracker.js:50-56 | the same record polled again changes nothing |
| ProgressView.FinishedStopsPolling | app/static/js/modules/progress-tracker.js:20-47 | a completed or failed record stops the interval and forgets the session, even when it is not newer |
| ProgressView.FinalRecordShown | app/static/js/modules/progress-tracker.js:222-266 | completed shows the success overlay and ends with a success line; error shows its details or the default in the error overlay and ends with an error line; anything else leaves the overlay |
| ProgressView.SecondStartLeavesPoller | app/static/js/modules/progress-tracker.js:13-48 | starting twice overwrites the first interval's handle, so stopping leaves one interval running |
| ProgressView.AnyKeySnoc | app/static/js/modules/progress-tracker.js:171-175 | whether a key of a prefix occurs extends entry by entry |
| ProgressView.ProgressTracker.constructor | app/static/js/modules/progress-tracker.js:6-11 | the tracker starts idle with an empty card |
| ProgressView.ProgressTracker.StartTracking | app/static/js/modules/progress-tracker.js:13-18 | the card is shown for the session, an interval starts and the start note is logged |
| ProgressView.ProgressTracker.StartPolling | app/static/js/modules/progress-tracker.js:37-48 | one more interval runs |
| ProgressView.ProgressTracker.AddNote | app/static/js/modules/progress-tracker.js:242-265 | the note is appended to the activity log |
| ProgressView.ProgressTracker.StopTracking | app/static/js/modules/progress-tracker.js:20-29 | a running interval is cleared with the stop note, and the session, ids and time are forgotten |
| ProgressView.ProgressTracker.CancelTracking | app/static/js/modules/progress-tracker.js:31-35 | stop, hide the card and restore the button |
| ProgressView.ProgressTracker.Poll | app/static/js/modules/progress-tracker.js:38-46 | one tick: the record is processed and a finished one stops tracking |
| ProgressView.ProgressTracker.ProcessUpdate | app/static/js/modules/progress-tracker.js:50-69 | the card moves to the updated state |
| ProgressView.ProgressTracker.UpdateProgressBar | app/static/js/modules/progress-tracker.js:71-82 | the bar shows the percentage and the unstamped step |
| ProgressView.ProgressTracker.UpdateProgressDetails | app/static/js/modules/progress-tracker.js:84-90 | non-empty unstamped details replace the shown ones |
| ProgressView.ProgressTracker.ProcessLogEntries | app/static/js/modules/progress-tracker.js:92-124 | the card moves to the logged state |
| ProgressView.ProgressTracker.FollowUpLog | app/static/js/modules/progress-tracker.js:117-123 | with new lines, scroll when at the bottom, else show the indicator |
| ProgressView.ProgressTracker.NewLines | app/static/js/modules/progress-tracker.js:99-110 | the loop yields the remembered ids and the appended lines of the queue processing |
| ProgressView.ProgressTracker.CreateLogElement | app/static/js/modules/progress-tracker.js:126-150 | the entry's log line, or none |
| ProgressView.ProgressTracker.FormatStepName | app/static/js/modules/progress-tracker.js:152-182 | the step name as intended: the legacy table only when no workflow key occurs |
| ProgressView.ProgressTracker.FormatWith | app/static/js/modules/progress-tracker.js:171-205 | every table entry whose key occurs replaces its first occurrence, in table order |
| ProgressView.ProgressTracker.HandleCompletion | app/static/js/modules/progress-tracker.js:222-243 | the card moves to the completed state |
| ProgressView.ProgressTracker.HandleError | app/static/js/modules/progress-tracker.js:245-266 | the card moves to the failed state |
| ProgressView.ProgressTracker.Finish | app/static/js/modules/progress-tracker.js:227-264 | the final line is appended, the log scrolls, the overlay shows and the button is restored |
| ProgressView.ProgressTracker.ShowProgressCard | app/static/js/modules/progress-tracker.js:268-286 | the card is reset to its starting text for the session |
| ProgressView.ProgressTracker.InitializeProgressLog | app/static/js/modules/progress-tracker.js:298-304 | the log holds only the starting line |
| ProgressView.ProgressTracker.HideProgressCard | app/static/js/modules/progress-tracker.js:288-296 | the card is hidden, the indicator hidden, and the ids and time forgotten |
| ProgressView.ProgressTracker.OnLogScrolled | app/static/js/modules/progress-tracker.js:362-382 | at the bottom the indicator goes |
| ProgressView.KeepNewest | app/static/js/modules/progress-tracker.js:112-115 | the loop leaves the newest twenty lines |
| ProgressView.DetailMessageLabelsPass | app/static/js/modules/progress-tracker.js:184-207 | a bare "PASS" detail is shown with the check mark in front |
| ProgressView.DetailMessageRelabelsPass | app/static/js/modules/progress-tracker.js:184-207 | the detail formatter is not idempotent: formatting "PASS" twice puts the check mark in front twice |
| ProgressView.StopAndHideForget | app/static/js/modules/progress-tracker.js:20-29 | after stopping or hiding, the processed ids are empty and any record with a positive update time counts as newer |
| ProgressView.PrepareDataShownTwice | app/static/js/modules/progress-tracker.js:152-182 | as written, "prepare_data" is shown as "📋 📋 Chuẩn bị dữ liệu": the icon appears twice |
| RateLimiting.ConfigsSane | app/utils/rate_limiter.py:198-215 | the default configuration and the three configured services all have a positive rate and burst limit, a non-shrinking multiplier and a cap above the floor |
| RateLimiting.NamesDistinct | app/utils/rate_limiter.py:198-215 | the three configured service names are distinct |
| RateLimiting.InitialValid | app/utils/rate_limiter.py:36-56 | a new limiter is consistent and its circuit is CLOSED |
| RateLimiting.Recent | app/utils/rate_limiter.py:83-174 | the pruned window keeps exactly the request times newer than a minute ago |
| RateLimiting.Min | app/utils/rate_limiter.py:89 | the minimum is an element of the window and no element is smaller |
| RateLimiting.OpenRefuses | app/utils/rate_limiter.py:67-70 | while OPEN and before the reopening time, the request is refused with the remaining time and nothing changes |
| RateLimiting.OpenTurnsHalfOpen | app/utils/rate_limiter.py:67-74 | from the reopening time on, OPEN turns HALF_OPEN whatever the answer, and the spacing and burst checks decide |
| RateLimiting.BurstWaitPositive | app/utils/rate_limiter.py:87-91 | the wait until the oldest recent request leaves the window is positive |
| RateLimiting.DecisionMeaning | app/utils/rate_limiter.py:58-93 | both ways: a request is allowed exactly when the circuit is not holding it back, one interval has passed and fewer than burst-limit requests fell in the last minute; allowed waits 0, refused waits a positive time |
| RateLimiting.Checked | app/utils/rate_limiter.py:58-93 | the answer and the new state of `can_make_request`; its properties are OpenRefuses, OpenTurnsHalfOpen, BurstWaitPositive, DecisionMeaning, HalfOpenAdmitsTrials and CheckedChangesLittle |
| RateLimiting.HalfOpenAdmitsTrials | app/utils/rate_limiter.py:76-93 | HALF_OPEN puts no cap on trial requests: spacing and the burst window are all that limit them |
| RateLimiting.CheckedChangesLittle | app/utils/rate_limiter.py:58-93 | the check changes only the circuit (OPEN to HALF_OPEN) and prunes the window, keeping the limiter consistent |
| RateLimiting.Windowed | app/utils/rate_limiter.py:111-115 | the newest response time is last and at most ten are kept, dropping the oldest |
| RateLimiting.GrowsBy | app/utils/rate_limiter.py:132-135 | a multiplier of at least one never shrinks the interval |
| RateLimiting.AdaptedKeepsBounds | app/utils/rate_limiter.py:148-165 | adaptation keeps the interval between the floor and the cap and changes nothing else |
| RateLimiting.RecordedCircuit | app/utils/rate_limiter.py:95-108 | a success stamps the time and the window, counts one more success, closes HALF_OPEN and clears its failures, and leaves CLOSED and OPEN as they were |
| RateLimiting.Recorded | app/utils/rate_limiter.py:95-121 | the state after `record_request`; its properties are RecordedCircuit, RecordedResponseTimes, AdaptsOnTenth and RecordedKeepsConsistent |
| RateLimiting.RecordedResponseTimes | app/utils/rate_limiter.py:110-115 | a missing or zero response time is not recorded; any other is appended, keeping the ten newest |
| RateLimiting.AdaptsOnTenth | app/utils/rate_limiter.py:117-121 | unless adaptive scaling is on and this is a tenth success, the interval stays |
| RateLimiting.FailedMeaning | app/utils/rate_limiter.py:123-146 | a failure counts and stamps; only a 429 multiplies the interval, up to the cap; the circuit is OPEN afterwards exactly when it was or the threshold is reached, with the reopening time set on opening and kept when already open |
| RateLimiting.Failed | app/utils/rate_limiter.py:123-146 | the state after `record_failure`; its properties are FailedMeaning, HalfOpenFailureReopens and FailedKeepsConsistent |
| RateLimiting.HalfOpenFailureReopens | app/utils/rate_limiter.py:103-144 | a failure during the HALF_OPEN trial reopens the circuit at once |
| RateLimiting.RecordedKeepsConsistent | app/utils/rate_limiter.py:95-121 | a success keeps the limiter consistent |
| RateLimiting.FailedKeepsConsistent | app/utils/rate_limiter.py:123-146 | a failure keeps the limiter consistent |
| RateLimiting.StatsPredictDecision | app/utils/rate_limiter.py:58-189 | for a CLOSED limiter the statistics predict the next answer: allowed exactly when the time until the next request is 0 and the last minute is under the burst limit |
| RateLimiting.ErrorCode | app/utils/rate_limiter.py:285-292 | a raised error is recorded as 429, 408 or 500 |
| RateLimiting.RefusedSkipsCall | app/utils/rate_limiter.py:265-269 | a refused call never runs the function: the answer is the positive wait whatever the function would do |
| RateLimiting.RateLimitErrorBacksOff | app/utils/rate_limiter.py:282-298 | an error message containing 429 is re-raised and backs the interval off up to the cap |
| RateLimiting.AdaptiveRateLimiter.constructor | app/utils/rate_limiter.py:36-56 | a new limiter for the service and configuration, in the initial state |
| RateLimiting.AdaptiveRateLimiter.CanMakeRequest | app/utils/rate_limiter.py:58-93 | the answer and the new state are those of the check, and the limiter stays consistent |
| RateLimiting.AdaptiveRateLimiter.RecordRequest | app/utils/rate_limiter.py:95-121 | the limiter moves to the recorded-success state and stays consistent |
| RateLimiting.AdaptiveRateLimiter.Stamp | app/utils/rate_limiter.py:98-108 | the times are stamped and HALF_OPEN closes |
| RateLimiting.AdaptiveRateLimiter.KeepResponseTime | app/utils/rate_limiter.py:111-115 | the response window becomes the ten newest times |
| RateLimiting.AdaptiveRateLimiter.AdaptRateLimit | app/utils/rate_limiter.py:148-165 | the interval moves to the adapted one |
| RateLimiting.AdaptiveRateLimiter.RecordFailure | app/utils/rate_limiter.py:123-146 | the limiter moves to the failed state and stays consistent |
| RateLimiting.AdaptiveRateLimiter.Guard | app/utils/rate_limiter.py:262-298 | the wrapper's answer and the new state are those of the guarded call |
| RateLimiting.AdaptiveRateLimiter.GetStats | app/utils/rate_limiter.py:167-189 | the statistics of the current state |
| RateLimiting.Report | app/utils/rate_limiter.py:241-244 | a success is recorded as a request and a failure as a failure, and the limiter stays valid |
| RateLimiting.ServiceManager.constructor | app/utils/rate_limiter.py:196-219 | one initial limiter per configured service, with its configuration |
| RateLimiting.ServiceManager.Register | app/utils/rate_limiter.py:219-226 | a fresh limiter is registered under the name |
| RateLimiting.ServiceManager.GetLimiter | app/utils/rate_limiter.py:221-228 | a known name gets its own limiter and nothing changes; an unknown one gets a new default limiter, registered |
| RateLimiting.ServiceManager.CanCallApi | app/utils/rate_limiter.py:230-233 | the service's limiter answers as the check does, and every other limiter is untouched |
| RateLimiting.ServiceManager.RecordApiCall | app/utils/rate_limiter.py:235-244 | only the service's limiter records the success or failure |
| RateLimiting.ServiceManager.Call | app/utils/rate_limiter.py:257-301 | the decorated call behaves as the guarded call on the service's limiter, and every other limiter is untouched |
| Caching.CacheKey | app/utils/enhanced_cache.py:81-176 | the namespace, a colon at its end, then the key |
| Caching.CacheKeySeparates | app/utils/enhanced_cache.py:81-129 | within one namespace, different keys never share an entry |
| Caching.CacheKeyCanCollide | app/utils/enhanced_cache.py:81 | across namespaces a colon in a namespace or key makes two pairs share an entry |
| Caching.SetAnswerCases | app/utils/enhanced_cache.py:83-123 | set succeeds always when the in-process layer is used; for REDIS_ONLY exactly when Redis stored it; for FILE_BACKUP exactly when Redis or the file stored it |
| Caching.Stored | app/utils/enhanced_cache.py:95-102 | the in-process dictionary after `set`; its properties are GetAfterSet and OtherKeysUntouched |
| Caching.GetAfterSet | app/utils/enhanced_cache.py:95-152 | with Redis not answering, a value set is read back up to and including its expiry instant; after it the read misses and removes the entry |
| Caching.Fetched | app/utils/enhanced_cache.py:125-172 | the dictionary and the answer of the layered `get`; its properties are GetAfterSet, OtherKeysUntouched and ClearExpiredExact |
| Caching.OtherKeysUntouched | app/utils/enhanced_cache.py:72-198 | set, get and delete on one key leave every other key's entry as it was |
| Caching.DeleteIdempotent | app/utils/enhanced_cache.py:185-190 | deleting an absent key changes nothing, deleting twice is deleting once, and the key is gone |
| Caching.ClearExpiredExact | app/utils/enhanced_cache.py:143-218 | the sweep removes exactly the entries past their expiry, and the survivors are exactly those a get at that instant would answer from |
| Caching.ClearExpiredIdempotent | app/utils/enhanced_cache.py:200-218 | sweeping twice is sweeping once, and a sweep adds no entry |
| Caching.SmartCacheRemembers | app/utils/enhanced_cache.py:221-249 | a value the function returned is served without calling it up to its expiry; a None result is never served and the function is called again |
| Caching.SmartCacheHitSkipsCall | app/utils/enhanced_cache.py:236-239 | an unexpired non-None cached value is returned without calling the function and changes nothing |
| Caching.MemoryStore.constructor | app/utils/enhanced_cache.py:17 | the shared dictionary starts empty |
| Caching.EnhancedCache.constructor | app/utils/enhanced_cache.py:59-62 | a cache with the strategy over the shared dictionary |
| Caching.EnhancedCache.Set | app/utils/enhanced_cache.py:72-123 | the dictionary becomes the stored one and the answer is whether some layer stored the value |
| Caching.EnhancedCache.Get | app/utils/enhanced_cache.py:125-172 | the dictionary and the answer are those of the layered lookup |
| Caching.EnhancedCache.Delete | app/utils/enhanced_cache.py:174-198 | the key's in-process entry is removed |
| Caching.EnhancedCache.ClearExpired | app/utils/enhanced_cache.py:200-218 | the dictionary keeps exactly its unexpired entries |
| Caching.SmartCached | app/utils/enhanced_cache.py:227-247 | the decorated call's dictionary, value and whether the function ran are those of the smart call |
| Caching.HitRateBounds | app/utils/enhanced_cache.py:284-286 | the hit rate lies between 0 and 100, is 100 exactly when there are hits and no misses, and 0 exactly when there are no hits |
| Caching.HitRateMoves | app/utils/enhanced_cache.py:284-286 | a hit never lowers the hit rate and a miss never raises it |
| Caching.CacheStats.constructor | app/utils/enhanced_cache.py:266-270 | all counters start at zero |
| Caching.CacheStats.Hit | app/utils/enhanced_cache.py:272-273 | only the hit counter rises, by one |
| Caching.CacheStats.Miss | app/utils/enhanced_cache.py:275-276 | only the miss counter rises, by one |
| Caching.CacheStats.SetOperation | app/utils/enhanced_cache.py:278-279 | only the set counter rises, by one |
| Caching.CacheStats.Error | app/utils/enhanced_cache.py:281-282 | only the error counter rises, by one |
| Caching.CacheStats.GetStats | app/utils/enhanced_cache.py:284-295 | the counters, total requests as hits plus misses, and a hit rate between 0 and 100 |
| Caching.CacheStats.Reset | app/utils/enhanced_cache.py:297-301 | all counters return to zero |
| DatabaseUrls.SchemeFixedRewrites | app/config.py:27 | a `postgres://` URL gets the `postgresql://` scheme and keeps the rest |
| DatabaseUrls.SchemeFixedKeeps | app/utils/config_manager.py:303 | a URL without `postgres://` in it is left alone |
| DatabaseUrls.WithSsl | app/utils/config_manager.py:306-309 | the rewritten URL extends the original |
| DatabaseUrls.WithSslConfigures | app/config.py:35-44 | after the rewrite the URL has a query and names `sslmode` |
| DatabaseUrls.WithSslStable | app/utils/config_manager.py:306-309 | rewriting a rewritten URL changes nothing, so the parameters are added at most once |
| DatabaseUrls.WithSslKeepsExplicit | app/config.py:37-43 | a URL that already names `sslmode` after a `?` is never touched |
| ConfigManagement.DetectEnvironmentNames | app/utils/config_manager.py:108-117 | each environment's name detects it, in any case; unset or any other value means development |
| ConfigManagement.DetectEnvironment | app/utils/config_manager.py:108-117 | the environment named by `FLASK_ENV` (default development), in any case; its property is DetectEnvironmentNames |
| ConfigManagement.TablesStricterInProduction | app/utils/config_manager.py:119-251 | production has a lower circuit threshold and a longer circuit timeout than staging and no higher CoinGecko rate than development; every cache table's default timeout is at most its maximum; file backup is off exactly in production |
| ConfigManagement.LoadConfigFollowsEnvironment | app/utils/config_manager.py:253-273 | debug is on exactly outside production, and the tables and Redis URL are those of the detected environment |
| ConfigManagement.LoadConfig | app/utils/config_manager.py:253-273 | the configuration loaded from the environment variables; its property is LoadConfigFollowsEnvironment |
| ConfigManagement.FlaskConfigMeaning | app/utils/config_manager.py:286-345 | the cache is Redis exactly when the Redis URL is non-empty; without `POSTGRES_URL` the database is the local SQLite file with no engine options; with it, the URI has the scheme fixed and always names `sslmode`, and the engine echoes SQL exactly in debug |
| ConfigManagement.FlaskConfigOf | app/utils/config_manager.py:286-345 | the Flask settings of a loaded configuration and the current `POSTGRES_URL`; its property is FlaskConfigMeaning |
| ConfigManagement.ConfigManager.constructor | app/utils/config_manager.py:104-106 | the configuration is loaded from the environment |
| ConfigManagement.ConfigManager.Config | app/utils/config_manager.py:275-280 | a loaded configuration is returned unchanged; a missing one is loaded first |
| ConfigManagement.ConfigManager.Reload | app/utils/config_manager.py:282-284 | the configuration is loaded afresh |
| ConfigManagement.ConfigManager.GetFlaskConfig | app/utils/config_manager.py:286-345 | the Flask configuration of the loaded configuration and the current `POSTGRES_URL` |
| AppSetup.ConfiguredDatabase | app/config.py:24-83 | `POSTGRES_URL` is preferred; a hosted server gets `require` and 60 s, a local one `disable` and 10 s, and the URI always names an SSL mode; without either variable the database is SQLite under the instance path |
| AppSetup.DatabaseSource | app/config.py:24 | `POSTGRES_URL` when non-empty, else `DATABASE_URL`; its property is ConfiguredDatabase |
| AppSetup.ExplicitModeKept | app/config.py:33-58 | a URL that already names an SSL mode keeps it, even when the engine options get another |
| AppSetup.EngineFor | app/config.py:48-67 | the engine options for a URL: pre-ping, 300 s recycle, 30 s pool timeout, 10 overflow, no echo, the application name, 60 s connect timeout for a hosted server, 10 s for a local one, and the SSL mode of its location; its properties are ConfiguredDatabase and ExplicitModeKept |
| AppSetup.ConfiguredCache | app/config.py:85-94 | the cache is Redis exactly when `REDIS_URL` is non-empty, with that URL; otherwise an old Redis URL entry stays; modification tracking is off |
| AppSetup.FlaskApp.ConfigureApp | app/config.py:7-94 | the application's settings become the configured ones |
| AppSetup.FlaskApp.SetDatabase | app/config.py:22-83 | the database settings become those for the environment |
| AppSetup.FlaskApp.SetCache | app/config.py:87-94 | the cache settings become those for the environment |
| AppSetup.Secured | app/config.py:32-44 | the URL gets the SSL mode for its location, unless it already names one |
| ChartModules.JsFiles | app/template_helpers.py:30 | exactly the listed names ending in `.js` are kept, none added or repeated |
| ChartModules.RemoveFirst | app/template_helpers.py:39 | one occurrence of the name is removed and nothing else |
| ChartModules.PriorityPass | app/template_helpers.py:36-39 | the names moved to the ordered list and those left are, together, the files |
| ChartModules.LexTotal | app/template_helpers.py:42 | Python's string order is total |
| ChartModules.Insert | app/template_helpers.py:42 | inserting into a sorted list keeps it sorted and adds exactly the name |
| ChartModules.Sort | app/template_helpers.py:42 | the result is sorted and a permutation of the input |
| ChartModules.PriorityPassTakesPresent | app/template_helpers.py:36-39 | for distinct priority names, the ordered part is the present priority names in priority order, and a name stays among the files exactly when it was there and was not taken |
| ChartModules.PriorityPassOrderedFrom | app/template_helpers.py:36-39 | the pass takes only priority names |
| ChartModules.ArrangedMeaning | app/template_helpers.py:33-42 | for distinct files, the arrangement is a permutation of the files: the present priority names first, in priority order, then exactly the other files, sorted |
| ChartModules.PriorityDistinct | app/template_helpers.py:19 | the four priority names are distinct |
| ChartModules.OrderedFilesMeaning | app/template_helpers.py:19-42 | for a directory listing, the order is a permutation of its `.js` files: gauge, bar, line and doughnut as present, then every other `.js` file alphabetically |
| ChartModules.DistinctCountsOne | app/template_helpers.py:30 | a name occurs at most once in a list of distinct names |
| ChartModules.Parts | app/template_helpers.py:45-64 | one part per ordered file |
| ChartModules.WrappedKeepsContent | app/template_helpers.py:53-59 | a module's own text appears whole inside its guarded block |
| ChartModules.JoinHasParts | app/template_helpers.py:66 | every part occurs in the joined text |
| ChartModules.ContainsThrough | app/template_helpers.py:66 | a text containing a part contains what the part contains |
| ChartModules.ConcatenatedHasEveryModule | app/template_helpers.py:44-66 | every `.js` file of the listing contributes its part, and a readable file's own text occurs whole in the content |
| ChartModules.ChartContentCached | app/template_helpers.py:21-72 | outside debug, once a non-empty text was produced it is served by every later call whatever the directory holds; in debug the kept text is never read or written |
| ChartModules.MissingDirectory | app/template_helpers.py:74-76 | a missing directory gives the fixed comment and keeps nothing |
| ChartModules.ChartApp.constructor | app/template_helpers.py:24 | no text is kept at first |
| ChartModules.ChartApp.GetChartModulesContent | app/template_helpers.py:12-76 | the kept text and the answer are those of one call of the helper |
| ChartModules.OrderFiles | app/template_helpers.py:33-42 | the two loops give the arrangement: present priority names, then the rest sorted |
| ChartModules.WrapAll | app/template_helpers.py:45-64 | the loop gives one part per file, in order |
| AutoReport.ExtractCode | app/services/auto_report_scheduler.py:78-100 | a missing or empty reply gives an empty page and the two no-response comments; otherwise each part is the stripped body of its fence (`javascript`, else `js`, for the script), with the fixed fallback when the fence is missing |
| AutoReport.ExtractCodeHtml | app/services/auto_report_scheduler.py:89-97 | an html fence after backtick-free text yields its stripped body as the page |
| AutoReport.FallbackText | app/services/auto_report_scheduler.py:157-164 | the search-less call's result is a non-empty text or nothing |
| AutoReport.Kept | app/services/auto_report_scheduler.py:267-293 | a research answer is kept only when it is a non-empty text whose verdict is PASS |
| AutoReport.AcceptedReport | app/services/auto_report_scheduler.py:233-315 | an accepted report is never empty and never FAIL; without the fallback it is PASS, so UNKNOWN can only come from the fallback |
| AutoReport.TriedBounded | app/services/auto_report_scheduler.py:249-265 | one three-try call makes at most three calls and one prompt, and waits only the base delay or twice it |
| AutoReport.RoundBounded | app/services/auto_report_scheduler.py:236-310 | one round adds at most three calls and one prompt, one more of each for the fallback on the last round, and waits 30 or 60 s |
| AutoReport.ExtendsTrans | app/services/auto_report_scheduler.py:233-310 | the bounds of two stretches of a run add up |
| AutoReport.WaitsTrans | app/services/auto_report_scheduler.py:261-360 | waits from a set over two stretches stay in the set |
| AutoReport.ResearchBounded | app/services/auto_report_scheduler.py:233-310 | the research loop makes at most three calls per round plus one fallback call, one prompt per round plus the fallback one, and waits only 30 or 60 s |
| AutoReport.PassOnFirstTry | app/services/auto_report_scheduler.py:249-287 | a PASS answer on a round's first try is taken at once: one call, no wait |
| AutoReport.FailedRoundMovesOn | app/services/auto_report_scheduler.py:258-310 | three failed tries without a 500 INTERNAL error make no fallback call: the next round follows the three calls and the 30 and 60 s waits |
| AutoReport.Interface | app/services/auto_report_scheduler.py:347-381 | an interface result, when there is one, always has a page |
| AutoReport.OkMeansStored | app/services/auto_report_scheduler.py:167-402 | the run reports success exactly when it stored a row; that row has a page and its commit went through; at most one commit is attempted |
| AutoReport.BadKeyDoesNothing | app/services/auto_report_scheduler.py:183-185 | a missing or empty key stops the run before it reads, calls, waits or writes anything |
| AutoReport.NoRoundsNoReport | app/services/auto_report_scheduler.py:233-315 | with fewer than one attempt the run fails without calling the model |
| AutoReport.StoredNeedsAcceptedReport | app/services/auto_report_scheduler.py:199-327 | a stored report needs a key, a client and at least one round, and came from an accepted research report that is PASS without the fallback and never FAIL |
| AutoReport.PresentedBounded | app/services/auto_report_scheduler.py:319-381 | the interface stage makes at most three calls and one prompt, and waits 20 or 40 s |
| AutoReport.BackoffsJoin | app/services/auto_report_scheduler.py:261-360 | a research stretch followed by an interface stretch waits only 20, 30, 40 or 60 s |
| AutoReport.RunBounded | app/services/auto_report_scheduler.py:167-402 | a whole run makes at most three calls per round plus four, sends at most one prompt per round plus two, and only waits 20, 30, 40 or 60 s |
| AutoReport.Round | app/services/auto_report_scheduler.py:236-310 | one round against the world answers and advances as the round function says, without touching the database or events |
| AutoReport.AskFallback | app/services/auto_report_scheduler.py:127-165 | the search-less call sends the prompt with the offline note as one more prompt, uses exactly one scripted reply, and yields its text only when there is text whose verdict is not FAIL; the database and the events are untouched |
| AutoReport.Research | app/services/auto_report_scheduler.py:233-310 | the loop against the world answers and advances as the research loop says |
| AutoReport.InterfaceCall | app/services/auto_report_scheduler.py:347-381 | the interface call against the world answers and advances as the interface function says |
| AutoReport.Present | app/services/auto_report_scheduler.py:319-396 | the answer, trace and database position are those of the interface stage |
| AutoReport.GenerateAutoResearchReport | app/services/auto_report_scheduler.py:167-402 | the answer, trace and database position are those of one run |
| AutoReport.ParseIntRoundTrip | app/services/auto_report_scheduler.py:459 | a natural number written in digits is read back |
| AutoReport.StartAutoReportScheduler | app/services/auto_report_scheduler.py:439-464 | the start-up decision as a value; its properties are StartMeaning and StartDefaultInterval |
| AutoReport.StartMeaning | app/services/auto_report_scheduler.py:447-464 | runs are scheduled exactly when the key is non-empty and the switch is "true" in any case, every parsed interval; an interval `int()` refuses raises exactly then; declining happens exactly without the key or without the switch, and an unset switch declines |
| AutoReport.StartDefaultInterval | app/services/auto_report_scheduler.py:447-460 | in any environment with a non-empty key, the switch on and no interval set, runs are every 3 hours with that key |
| AutoReport.StartExample | app/services/auto_report_scheduler.py:455-460 | an example: the environment holding only a key and the switch "TRUE" schedules runs every 3 hours |

## Left out

- The LLM clients: `google.genai` and `google.generativeai`, their configuration and thinking budgets. Each call is a scripted reply from `Env`, and `time.sleep` is a ghost list of waits.
- The LangGraph runtime: `StateGraph.compile` and `invoke` are replaced by `Graph.Run` over the edge table, with a step budget standing in for the recursion limit.
- `generate_report_content_node`: it is imported by the first workflow but is not part of this model. It only writes `report_content` from an input of `Env`.
- The HTML, JavaScript and CSS routers of the second workflow: they are imported from the routing module but not defined in routing.py. `Routing` models them by the rule the component nodes are built around and the workflow tests assert: continue once the part is made, end after three attempts, retry otherwise.
- Progress calls from the nodes: `update_step(session_id, details=...)` and `start_progress(..., total_steps=11)` do not match the signatures in app/services/progress_tracker.py, so they would raise `TypeError` as written. They are modelled as accepted calls recorded in an abstract ghost event log. Neither signature is changed.
- `ThreadPoolExecutor` fan-out in `get_realtime_dashboard_data`: only the merge rule and the timeout outcome are modelled.
- Threads, locks and the scheduler thread: every method is taken as atomic. The loop of `schedule_auto_report` (auto_report_scheduler.py:405-436) is not modelled, and neither are its `MAX_REPORT_ATTEMPTS` and `USE_FALLBACK_ON_500` settings.
- In `generate_auto_research_report`:
  - the `'db' in locals()` rollback;
  - the `print` calls;
  - the reuse of a `response` from an earlier attempt in messages.
- Database and ORM: `db.session` and psycopg2 are reduced to scripted commit outcomes.
- Flask: routes, the app factory, error handlers, migrations and health checks.
- Socket.IO transport and rooms: emits are recorded, not delivered.
- `vercel_socketio_adapter.py`.
- The DOM: the progress card and log containers are the values they display.
- Timers, polling and scrolling are reduced to flags and parameters. `setupProgressLogScrollListener` is reduced to `OnLogScrolled`.
- `getStatus` of the WebSocket client, `get_connection_stats` of the manager, and the `broadcast_*` wrappers other than `broadcast_to_channel`: they only read or forward.
- The progress record fields `last_update` and `step_queue`, which the card reads, are absent from the Python tracker's record; `current_step_name` is set by the tracker (app/services/progress_tracker.py:22-74). The card is modelled on the record it expects, with each field optional.
- Prompt-file and `colors.css` reading: file contents are `Env` inputs, and the `colors.css` substitution is not modelled.
- Creating directories with `os.makedirs` and its errors.
- The `FLASK_ENV` print branch of app/config.py:15-20 and the URL debug print.
- `export_config`, `is_production` and `is_development` of the config manager.
- `create_report.py`: `main()` and `find_docx_file`.
- File I/O: writes are modelled as the decision of what to write.
- The Redis and file layers of `EnhancedCache`: they are parameters giving what each layer answered. The file layer is keyed by the bare key.
- `clear_expired` on malformed file entries.
- `set_backup_cache` and `get_backup_cache`.
- Caching.SmartCall: the wrapped function's result is a parameter, so a wrapped function that raises is not modelled; in the source its exception propagates out of the wrapper and nothing is cached (app/utils/enhanced_cache.py:242-245).
- `smart_cache` hashes its arguments with md5. The model abstracts that hash as the key it produces.
- `APIServiceManager.get_all_stats` (rate_limiter.py:246-251): it only maps `get_stats` over the limiters.
- `round` in `get_stats` and `hit_rate`, and the wording of the rate-limited reply message.
- The time that passes between the check and the call in `rate_limited_api_call`.
- RateLimiting: every rate-limit configuration comes from fixed tables, so the model takes a configuration as sane: positive requests per minute, a burst limit of at least one, a multiplier of at least one, and a backoff bound above the base interval. With a burst limit of 0 the source would call `min([])`.
- Case folding: Python `lower()` and `re.IGNORECASE` are modelled for ASCII, Latin-1, the Latin Extended letters Vietnamese uses and the Vietnamese block U+1EA0-U+1EF9 only.
- `\s` and `strip()` are ASCII whitespace only, and `\d` is ASCII digits only. The same holds for the JavaScript `\s`.
- `int()` is modelled without underscores or Unicode digits.
- Floating point:
  - `percentage = int(step / total * 100)` is truncating integer division;
  - rate-limiter intervals and response times are exact reals;
  - chart geometry is not modelled.
- `json.dumps` is an `Env` renderer.
- `Env` reads the date from the clock.

## Findings

| source | as written | input that shows it | evidently intended | confidence | as-written member | corrected member |
|---|---|---|---|---|---|---|
| app/static/js/modules/progress-tracker.js:152-182 | `formatStepName` applies the workflow table and then the legacy table to the result, and the legacy keys "Chuẩn bị dữ liệu", "Tạo giao diện", "Trích xuất mã nguồn" and "Lưu báo cáo" occur inside the new labels | step name "prepare_data" is shown as "📋 📋 Chuẩn bị dữ liệu" (proved); by the same rule "create_interface", "extract_code" and "save_database" get their icon twice as well (not proved) | the legacy table applies only to names no workflow key matched, so the icon appears once | likely; not executed | ProgressView.PrepareDataShownTwice | ProgressView.StepNameLabelsOnce |
| app/services/workflow_nodes/validate_report.py:69-101 | `has_numbers` is the `re.search` result, a match object or None, and `sum` over the five signals adds it to an int, which raises `TypeError`; the `except` branch then records a parse error | any research text longer than 2000 characters with no stored verdict and no marker ends UNKNOWN with "Lần thử n: Lỗi khi parse validation result: unsupported operand type(s) for +: 'int' and 're.Match'" (or 'NoneType') appended | `has_numbers` counts as a truth value, so the quality score decides PASS or FAIL | certain; not executed | Validate.ValidateParseError | Validate.CorrectedFallbackDecides |

The progress card of the model shows step names through the corrected `StepName`. The workflows run the validation node as written, `Validate.ValidateReport`, since its error path is what the program does; `Validate.ValidateCorrected` is the node with the intended score.
