# Gmail GPT categoriser — a verified model of its core

The categoriser reads messages from a Gmail account. It asks a chat-completion
model to classify each one into a fixed vocabulary of categories, then applies
a Gmail label named after the category. This project models the sequential
logic of that pipeline in Dafny and proves what the code promises about it.

The modules are:

- `Processor` (processor.dfy): `EmailProcessor`. It covers:
  - the two label caches, name→id and id→name;
  - the get-or-create protocol against the label server: cache hit, then a refresh, then a create, then a refresh after a conflict. The create is `create_label` without its retry wrapper, which is the corrected behaviour of the second finding below;
  - grouping results by category, with the confidence threshold;
  - the categorisation loop;
  - the run statistics and the batch report.

  Each step is a function on a `State` value, and the properties are lemmas about those functions. The class `EmailProcessor` keeps the same state in fields, and each of its methods, loops included, is proved to leave exactly the state its function describes.
- `LabelService` (label_service.dfy): the Gmail label operations the processor uses (listing, creating, applying). They are modelled on an abstract server value. Creating a taken name fails with the API's 409 conflict.
- `Categorizer` (categorizer.dfy): `GPTCategorizer`. It covers:
  - the system and user prompts;
  - the response parser, with its decoded-record branch and the whole-word scan used for text that is not JSON;
  - the control flow of `categorize_email`, including the plain-text retry;
  - the batch loop, the category statistics and the vocabulary check.
- `Models` (models.dfy): the records, the body validator, the content sent for categorisation, the confidence validator and the statistics' derived values.
- `MimeParse` (mime_parse.dfy): `GmailClient._parse_message`, covering the header selection and the recursive walk over MIME parts.
- `Config` (config.dfy): the settings validators for log level, temperature and file paths, and the defaults.
- `Text`, `Collections`, `Wrappers`: string helpers (ASCII letter case, the full `str.isspace` whitespace set), first-seen order and counts, `Option` and `Result`.

Outside collaborators are parameters of the model:

- The completion service is a function from request to reply.
- `json.loads` is the already-decoded value of the response text.
- Base64url decoding (RFC 4648 section 5, then UTF-8 with errors ignored) is a function passed in that returns the decoded text or the decoder's error. Date parsing is a function passed in.
- The mailbox is three functions: listing message ids, fetching one message, and classifying one message. The last is instantiated with the model's own `categorize_email` in `Processor.RealClassifierSucceeds` and `Processor.RealClassifierNoFailures`.
- Clock readings are arguments.

On these points the model follows the code's behaviour:

- The parser can raise. It does so on a decoded value that is not an object, and on a non-numeric confidence next to a rejected category. `categorize_email` catches both.
- The text scan picks the leftmost match, and at that position the first category in vocabulary order. It does not pick the longest match.
- The labelling threshold skips only a truthy confidence below 0.3, so a confidence of 0.0 is labelled.
- The fallback reasoning is "Could not parse response".
- The retry decorator on `categorize_email` never fires, because its body catches every exception.

## Model

| member | source | states |
|---|---|---|
| Config.ValidateLogLevel | src/gmail_categorizer/config.py:108-114 | accepted iff the upper-cased value is DEBUG/INFO/WARNING/ERROR/CRITICAL; then returns that upper-case form, else the "Log level must be one of" error |
| Config.LogLevelIdempotent | src/gmail_categorizer/config.py:108-114 | an accepted level validates again to itself |
| Config.LogLevelIgnoresCase | src/gmail_categorizer/config.py:108-114 | the outcome does not depend on the case the level is written in |
| Config.ValidateTemperature | src/gmail_categorizer/config.py:116-121 | accepted iff 0 ≤ t ≤ 2, value kept; otherwise the temperature error |
| Config.JoinPath | src/gmail_categorizer/config.py:104-105 | joining a relative name to an absolute root gives an absolute path ending in "/" + name |
| Config.ValidateFilePath | src/gmail_categorizer/config.py:99-106 | an absolute path is unchanged; a relative one becomes absolute, starts with the project root and ends with the original |
| Config.FilePathIdempotent | src/gmail_categorizer/config.py:99-106 | validating an already validated path changes nothing |
| Config.DefaultsAreValid | src/gmail_categorizer/config.py:14-97 | the defaults pass every validator; batch 50, query "in:inbox", max tokens 150, 8 categories including Work, Personal and Other |
| Models.CleanBodyContent | src/gmail_categorizer/models.py:31-40 | length ≤ 10003; a body of at most 10000 characters is just stripped; a longer one is its first 10000 characters, left-stripped, plus "..." |
| Models.LongBodyKeepsMarker | src/gmail_categorizer/models.py:36-40 | an over-long body ends with "..." and is shorter than the input plus 3 |
| Models.NewEmailMessage | src/gmail_categorizer/models.py:15-40 | construction runs the validator on both body fields, so both are capped |
| Models.ContentForCategorization | src/gmail_categorizer/models.py:42-61 | `get_content_for_categorization`: the Subject, From and Content lines present, joined by "\n" |
| Models.ContentWithAllFields | src/gmail_categorizer/models.py:42-61 | with subject, sender and body, the content is the Subject, From and Content lines in that order, joined by "\n" |
| Models.ContentStartsWithSubject | src/gmail_categorizer/models.py:46-47 | a non-empty subject gives the first line |
| Models.ContentEndsWithBody | src/gmail_categorizer/models.py:52-59 | a non-empty body gives the last line, cut to 2000 characters plus "..." when longer |
| Models.ContentFallsBackToSnippet | src/gmail_categorizer/models.py:53 | with an empty plain-text body the snippet is used |
| Models.ContentEmptyIff | src/gmail_categorizer/models.py:42-61 | the content is empty iff subject, sender and body are all empty |
| Models.ValidateConfidence | src/gmail_categorizer/models.py:71-76 | accepted iff absent or within [0, 1], value kept; otherwise "Confidence must be between 0 and 1" |
| Models.NewStats | src/gmail_categorizer/models.py:116-126 | every counter starts at 0, no end time, no errors |
| Models.Duration | src/gmail_categorizer/models.py:128-133 | none without an end time; otherwise end minus start |
| Models.SuccessRate | src/gmail_categorizer/models.py:135-140 | 0 when nothing was processed; otherwise rate × processed = categorised × 100, within [0, 100] when categorised ≤ processed |
| Text.Strip | src/gmail_categorizer/models.py:40 | `str.strip()`: both ends lose their `str.isspace` characters, nothing else changes |
| Text.Ellipsize | src/gmail_categorizer/models.py:55-58 | text within the limit is unchanged; longer text becomes its first `limit` characters plus "..." |
| Text.Before | src/gmail_categorizer/gmail_client.py:172 | `split('(')[0]`: the longest prefix without "(" |
| MimeParse.HeaderValue | src/gmail_categorizer/gmail_client.py:148-164 | the value the header loop leaves for one name: that of the last header with the name, ignoring case, else "" |
| MimeParse.HeaderValueAbsent | src/gmail_categorizer/gmail_client.py:148-164 | a header name absent (ignoring case) gives "" |
| MimeParse.HeaderValueIsLastMatch | src/gmail_categorizer/gmail_client.py:153-164 | otherwise the last header of that name wins |
| MimeParse.ScanHeaders | src/gmail_categorizer/gmail_client.py:147-164 | the header loop yields, for subject/from/to/date, the last matching header's value |
| MimeParse.PlainTexts | src/gmail_categorizer/gmail_client.py:183-193 | the decoded text/plain bodies met by `extract_parts`, in depth-first order |
| MimeParse.HtmlTexts | src/gmail_categorizer/gmail_client.py:183-198 | the decoded text/html bodies met by `extract_parts`, in depth-first order |
| MimeParse.Attachments | src/gmail_categorizer/gmail_client.py:183-204 | the file names `extract_parts` appends, in depth-first order |
| MimeParse.TextPartsAreNotAttachments | src/gmail_categorizer/gmail_client.py:189-204 | a text/plain or text/html part is never an attachment, whatever its file name |
| MimeParse.ExtractPart | src/gmail_categorizer/gmail_client.py:186-204 | one part: a failed decoding is returned as its error; otherwise a non-empty plain or HTML body overwrites its field, a multipart part recurses, any other part with a file name is appended |
| MimeParse.ExtractParts | src/gmail_categorizer/gmail_client.py:183-204 | the depth-first walk stops with the first body that fails to decode; otherwise the last non-empty plain and HTML bodies win, and attachments are appended in walk order |
| MimeParse.ExtractBodies | src/gmail_categorizer/gmail_client.py:206-219 | the first failed decoding is returned; otherwise a payload with parts is walked; one without uses its own text/plain or text/html body and has no attachments |
| MimeParse.FirstDecodeErrorSpec | src/gmail_categorizer/gmail_client.py:192-219 | none iff every body decodes; otherwise the error of a failing body with every earlier one decoding |
| MimeParse.HeaderKeyError | src/gmail_categorizer/gmail_client.py:233 | no KeyError iff every header has a name and a value |
| MimeParse.ParseMessage | src/gmail_categorizer/gmail_client.py:142-236 | fails iff a body does not decode or id, threadId or a header key is missing; the error is the first failed decoding in walk order, else that key's KeyError, in that order; otherwise every field: headers by last match, cleaned bodies, attachments, snippet and labels defaulting to "" and [], and every header kept in order |
| LabelService.ListLabels | src/gmail_categorizer/gmail_client.py:242-265 | the labels in order, or the listing error with the server unchanged |
| LabelService.IsConflict | src/gmail_categorizer/processor.py:305 | the processor's test for a "label already exists" error: "409" in the text, or "exists" in its lower-cased form |
| LabelService.ConflictErrorIsRecognised | src/gmail_categorizer/processor.py:305 | a 409 HttpError's text (shortened) counts as a conflict |
| LabelService.CreateLabel | src/gmail_categorizer/gmail_client.py:271-309 | the body of `create_label` without its retry decorator, so the HttpError reaches the caller unwrapped: a taken name (including labels other clients just added) fails with the 409 conflict; a free name creates one user label with a fresh id, unless the server fails the request |
| LabelService.AddLabel | src/gmail_categorizer/gmail_client.py:315-340 | true iff the modification succeeds; only then is the label recorded |
| LabelService.RetryErrorText | src/gmail_categorizer/gmail_client.py:267-270 | the text of the tenacity RetryError that `create_label` raises once its attempts are used up, for a given future address |
| LabelService.CreateLabelAsWritten | src/gmail_categorizer/gmail_client.py:267-309 | as written, any create error reaches the caller as the retry wrapper's text; the server state is the same as for `CreateLabel` |
| LabelService.ConflictHiddenAsWritten | src/gmail_categorizer/gmail_client.py:267-270 | for a taken name the bare error is a conflict, but the wrapped one is not, for every hex address of the future without "409" |
| LabelService.RetryErrorConflictIff | src/gmail_categorizer/processor.py:305 | for every hex address of the future, the wrapper's text passes the conflict test iff the address contains "409" |
| Categorizer.SystemPrompt | src/gmail_categorizer/gpt_categorizer.py:28-54 | `_build_system_prompt`: the fixed instructions with the categories joined by ", " |
| Categorizer.SystemPromptNamesEveryCategory | src/gmail_categorizer/gpt_categorizer.py:28-54 | every vocabulary entry occurs in the system prompt |
| Categorizer.UserPrompt | src/gmail_categorizer/gpt_categorizer.py:56-67 | a fixed heading plus the content, cut to its first 3000 characters plus "..." when longer |
| Categorizer.Search | src/gmail_categorizer/gpt_categorizer.py:172-176 | `re.search` of the whole-word alternation of the categories, ignoring case: the leftmost matching position, and there the first matching alternative; none iff no alternative matches anywhere |
| Categorizer.Canonical | src/gmail_categorizer/gpt_categorizer.py:179-184 | the result is a vocabulary entry equal to the word ignoring case, or the word itself when none is |
| Categorizer.CanonicalIsFirst | src/gmail_categorizer/gpt_categorizer.py:181-184 | the entry returned is the first such entry |
| Categorizer.ParseGptResponse | src/gmail_categorizer/gpt_categorizer.py:141-197 | raises exactly for a decoded non-object or for a non-numeric confidence next to a rejected category; otherwise confidence in [0, 1] and, for a non-empty vocabulary, a vocabulary name or "Other" |
| Categorizer.ParseRecord | src/gmail_categorizer/gpt_categorizer.py:145-166 | the decoded-record branch of `_parse_gpt_response`: defaults, the vocabulary check with the 0.3 penalty, and the range check |
| Categorizer.EmptyRecordDefaults | src/gmail_categorizer/gpt_categorizer.py:147-149 | missing fields give "Other", 0.0, "No reasoning provided" |
| Categorizer.ValidRecordKept | src/gmail_categorizer/gpt_categorizer.py:147-166 | a vocabulary category with an in-range confidence is kept as it is |
| Categorizer.RejectedCategoryLowersConfidence | src/gmail_categorizer/gpt_categorizer.py:151-155 | a category outside the vocabulary becomes "Other" with confidence max(0, c − 0.3), even when "Other" is not in the vocabulary |
| Categorizer.OutOfRangeConfidenceIsHalf | src/gmail_categorizer/gpt_categorizer.py:157-160 | an out-of-range confidence becomes 0.5 |
| Categorizer.SearchFindsLeftmost | src/gmail_categorizer/gpt_categorizer.py:172-176 | the search returns the leftmost match and, there, the first alternative |
| Categorizer.ScanResponse | src/gmail_categorizer/gpt_categorizer.py:168-197 | the regex branch of `_parse_gpt_response`: the canonical name of the leftmost whole-word match at 0.3, else the "Could not parse response" fallback |
| Categorizer.ScanFindsLeftmostWord | src/gmail_categorizer/gpt_categorizer.py:168-190 | non-JSON text: the vocabulary spelling of the leftmost whole-word match, with 0.3 and "Extracted from non-JSON response" |
| Categorizer.ScanAtHit | src/gmail_categorizer/gpt_categorizer.py:178-190 | at the search's hit, the parser returns the canonical spelling of that word |
| Categorizer.UndecodedIsScanned | src/gmail_categorizer/gpt_categorizer.py:168-176 | text that fails to decode goes to the scan |
| Categorizer.ScanResponseAtHit | src/gmail_categorizer/gpt_categorizer.py:178-190 | the scan's category at a hit |
| Categorizer.ScanWithoutMatch | src/gmail_categorizer/gpt_categorizer.py:192-197 | no match gives "Other", 0.0, "Could not parse response" |
| Categorizer.NoMatchInsideWord | src/gmail_categorizer/gpt_categorizer.py:173 | no match glued to word characters on both sides |
| Categorizer.Interpret | src/gmail_categorizer/gpt_categorizer.py:118-139 | any reply yields a valid category with a confidence; for a non-empty vocabulary its name is in the vocabulary or "Other" |
| Categorizer.FirstRequest | src/gmail_categorizer/gpt_categorizer.py:93-102 | the first completion request: the model, what the system and user prompts are built from (vocabulary and email), max tokens, temperature, and JSON response format on |
| Categorizer.CategorizeEmail | src/gmail_categorizer/gpt_categorizer.py:73-139 | never raises; the first request is in JSON mode; a second, text-mode request is made iff the first failed with "response_format"; the category interprets the last reply |
| Categorizer.OtherErrorsNotRetried | src/gmail_categorizer/gpt_categorizer.py:103-116 | any other error is not retried and becomes "Categorization failed: <msg>" |
| Categorizer.NonRecordBecomesFailure | src/gmail_categorizer/gpt_categorizer.py:130-139 | a decoded non-object turns into the fallback category with the AttributeError's text |
| Categorizer.MapCategories | src/gmail_categorizer/gpt_categorizer.py:212-228 | the list the batch loop builds: one category per email, in order |
| Categorizer.MapCategoriesPointwise | src/gmail_categorizer/gpt_categorizer.py:212-228 | one category per email, each the outcome for the email at that position |
| Categorizer.BatchPointwise | src/gmail_categorizer/gpt_categorizer.py:212-236 | the batch's i-th category is `categorize_email` of the i-th email, and it is valid |
| Categorizer.CategorizeBatch | src/gmail_categorizer/gpt_categorizer.py:212-228 | the loop yields exactly the pointwise categories, in input order |
| Categorizer.CategorizeBatchAsWritten | src/gmail_categorizer/gpt_categorizer.py:199-236 | as written: fails with division by zero iff the batch is empty, otherwise the pointwise categories |
| Categorizer.Tally | src/gmail_categorizer/gpt_categorizer.py:256-257 | one entry per first-seen name with its number of occurrences |
| Categorizer.SortByCount | src/gmail_categorizer/gpt_categorizer.py:267-271 | the sorted distribution is a permutation of the counts |
| Categorizer.SortSorted | src/gmail_categorizer/gpt_categorizer.py:267-271 | and is in descending order of count |
| Categorizer.SortHead | src/gmail_categorizer/gpt_categorizer.py:267-277 | its head is the first-seen entry with the largest count, because the sort is stable |
| Categorizer.FirstMaxIsFirst | src/gmail_categorizer/gpt_categorizer.py:277 | no earlier entry reaches the maximum |
| Categorizer.TallyNames | src/gmail_categorizer/gpt_categorizer.py:252-261 | the counting loop: keys in first-seen order, each with its count |
| Categorizer.CategoryStats | src/gmail_categorizer/gpt_categorizer.py:238-286 | none iff the list is empty; otherwise the total, the sorted distribution, its head name, and the high and low confidence counts |
| Categorizer.DistributionSumsToTotal | src/gmail_categorizer/gpt_categorizer.py:252-276 | the distribution's counts sum to the total |
| Categorizer.DistributionSorted | src/gmail_categorizer/gpt_categorizer.py:266-276 | the distribution is ordered by descending count |
| Categorizer.DistributionEntries | src/gmail_categorizer/gpt_categorizer.py:252-276 | an entry exists iff the name occurs, with its number of occurrences, and there are no others |
| Categorizer.MostCommonIsFirstSeenMax | src/gmail_categorizer/gpt_categorizer.py:266-277 | the most common category has the largest count, and every name seen before it has a strictly smaller count |
| Categorizer.CountHigh | src/gmail_categorizer/gpt_categorizer.py:278-281 | `high_confidence_count`: the entries with a truthy confidence of at least 0.8 |
| Categorizer.CountLow | src/gmail_categorizer/gpt_categorizer.py:282-285 | `low_confidence_count`: the entries with a truthy confidence below 0.5 |
| Categorizer.ZeroConfidenceNotCounted | src/gmail_categorizer/gpt_categorizer.py:278-285 | inserting an entry with no confidence or 0.0 anywhere in any list changes neither the high nor the low count |
| Categorizer.ValidateCategories | src/gmail_categorizer/gpt_categorizer.py:288-304 | true iff the vocabulary is non-empty and has no duplicates; size does not matter |
| Collections.SetSizeIffDistinct | src/gmail_categorizer/gpt_categorizer.py:298-299 | `len(set(xs)) == len(xs)` iff xs has no duplicates |
| Collections.FirstSeen | src/gmail_categorizer/gpt_categorizer.py:256-257 | dict key order: each element once, in order of first appearance |
| Processor.NameToId | src/gmail_categorizer/processor.py:259-263 | the `new_cache` dict of `_build_label_cache`: each eligible label's name mapped to its id, later labels overwriting |
| Processor.NameToIdKeys | src/gmail_categorizer/processor.py:259-263 | a name is in `new_cache` iff an eligible label (configured category or user label) has it |
| Processor.NameToIdLast | src/gmail_categorizer/processor.py:259-263 | the id kept is that of the last eligible label with the name |
| Processor.IdToName | src/gmail_categorizer/processor.py:241-243 | the lookup cache after `clear()` and refill: each listed label's id mapped to its name |
| Processor.IdToNameKeys | src/gmail_categorizer/processor.py:241-243 | the lookup cache's keys are exactly the listed ids |
| Processor.IdToNameLast | src/gmail_categorizer/processor.py:241-243 | each id maps to the name of the last label with that id |
| Processor.RefreshCache | src/gmail_categorizer/processor.py:250-271 | the cache is only added to or overwritten from eligible labels, one Gmail call is counted; a failed listing changes nothing |
| Processor.RefreshLookup | src/gmail_categorizer/processor.py:232-248 | the lookup cache becomes exactly the listing's pairs, one call is counted; a failed listing changes nothing |
| Processor.RefreshCacheWriteSet | src/gmail_categorizer/processor.py:259-266 | a cached name with no eligible listed label keeps its id |
| Processor.AfterCreateError | src/gmail_categorizer/processor.py:303-314 | a non-conflict error gives none and changes nothing; a conflict rebuilds the cache and returns the name's id if present |
| Processor.GetOrCreate | src/gmail_categorizer/processor.py:273-314 | a cached name returns its id at no cost; a returned id is cached; at most one create, and only after a refresh still misses; no label applied; no cache key lost |
| Processor.RefreshBalanced | src/gmail_categorizer/processor.py:237-256 | a refresh counts one Gmail call per successful listing and nothing else |
| Processor.GetOrCreateBalanced | src/gmail_categorizer/processor.py:273-314 | every counted call is a listing or creation; `categories_created` follows the labels created, at most one |
| Processor.CacheHitNoCalls | src/gmail_categorizer/processor.py:276-277 | a cache hit returns the cached id with the state unchanged |
| Processor.SecondCallHits | src/gmail_categorizer/processor.py:279-301 | after an id is returned, asking again returns it from the cache with no call |
| Processor.CreateWrites | src/gmail_categorizer/processor.py:284-301 | a successful create writes name→id and id→name, adds 1 to `categories_created` and to `api_calls_gmail`, and nothing else |
| Processor.FailureCreatesNothing | src/gmail_categorizer/processor.py:303-314 | no id means no label created and `categories_created` unchanged |
| Processor.ConflictRecovers | src/gmail_categorizer/processor.py:303-311 | a label another client created meanwhile, with a configured category name or of type user, is found after the conflict, without counting a creation |
| Processor.ConflictLostAsWritten | src/gmail_categorizer/processor.py:303-314 | with `create_label` as written, a conflicting create returns none without rebuilding the cache, not taken unless the future's address contains "409" |
| Processor.Skipped | src/gmail_categorizer/processor.py:202-208 | the two `continue`s: a failed result, or a truthy confidence below 0.3 |
| Processor.GroupOrder | src/gmail_categorizer/processor.py:200-213 | the key order of `category_groups`: each kept result's name at its first appearance |
| Processor.KeptNames | src/gmail_categorizer/processor.py:200-213 | the names of the results that are not skipped |
| Processor.Members | src/gmail_categorizer/processor.py:210-213 | a group holds only kept results of its name |
| Processor.MembersComplete | src/gmail_categorizer/processor.py:200-213 | every kept result is in its name's group, and the name opens a group |
| Processor.GroupOrderSnoc | src/gmail_categorizer/processor.py:210-212 | groups open in order of first appearance |
| Processor.MembersSnoc | src/gmail_categorizer/processor.py:213 | a kept result joins the end of its group |
| Processor.MembersOutsideOrder | src/gmail_categorizer/processor.py:211-212 | a name without a group has no members |
| Processor.ThresholdCases | src/gmail_categorizer/processor.py:202-208 | confidence 0.0 or none is kept, 0.2 is skipped, 0.3 is kept |
| Processor.Applications | src/gmail_categorizer/processor.py:224-230 | each applied label is the group's label, on a member's message that did not fail |
| Processor.AddAll | src/gmail_categorizer/processor.py:224-230 | one add per member, one Gmail call per successful add, caches untouched |
| Processor.ApplyGroup | src/gmail_categorizer/processor.py:216-230 | one pass of the group loop: get or create the label, then add it to every member, or skip the group when no id comes back |
| Processor.ApplyGroups | src/gmail_categorizer/processor.py:216-230 | the group loop over `category_groups` in key order |
| Processor.ApplyLabels | src/gmail_categorizer/processor.py:193-230 | `_apply_labels_to_emails`: build the label cache when it is empty, group the results, then apply each group |
| Processor.ApplyGroupFacts | src/gmail_categorizer/processor.py:216-230 | one group: at most one create, for its name; only kept results labelled; counters balanced |
| Processor.ApplyGroupsFacts | src/gmail_categorizer/processor.py:216-230 | over all groups: creates only for group names, no name twice |
| Processor.ApplyLabelsFacts | src/gmail_categorizer/processor.py:193-230 | a whole labelling pass: counters balanced, only kept results labelled, no category created twice |
| Processor.SkippedNeverLabelled | src/gmail_categorizer/processor.py:201-208 | a message whose results are all skipped gets no label |
| Processor.LookupName | src/gmail_categorizer/processor.py:187 | `self._label_lookup_cache.get(label_id, "")` |
| Processor.FirstKnown | src/gmail_categorizer/processor.py:186-189 | the first label id whose looked-up name is a category |
| Processor.CurrentCategory | src/gmail_categorizer/processor.py:180-191 | none iff no label looks up to a category (so none without labels); otherwise the first such, in message order |
| Processor.UnknownIdLooksUpEmpty | src/gmail_categorizer/processor.py:187 | an unknown id looks up as "" |
| Processor.CategorizeSingle | src/gmail_categorizer/processor.py:145-178 | success iff classifying returned; then one OpenAI call and the current category; otherwise "Other", 0.0 and the error text |
| Processor.RealClassifierSucceeds | src/gmail_categorizer/processor.py:149-165 | with the real categoriser every message succeeds, in a valid configured category or "Other" |
| Processor.SuccessCount | src/gmail_categorizer/processor.py:322 | at most the number of results |
| Processor.SuccessCountExtremes | src/gmail_categorizer/processor.py:322-323 | all succeed iff the count is the length; none iff it is 0 |
| Processor.FailureMessages | src/gmail_categorizer/processor.py:105-107 | exactly one error per failed result |
| Processor.BatchResult | src/gmail_categorizer/processor.py:316-333 | total = successful + failed = number of results; the run's errors |
| Processor.FetchAll | src/gmail_categorizer/processor.py:78-88 | fetched messages plus new errors = ids; one Gmail call per fetched message; only fetched messages kept |
| Processor.FetchAllKeepsFetched | src/gmail_categorizer/processor.py:78-88 | exactly the fetchable messages, in id order |
| Processor.Tallied | src/gmail_categorizer/processor.py:99-107 | one result moves categorised or failed, and the OpenAI count, by one, and records a failure's error |
| Processor.TalliedAfterSingle | src/gmail_categorizer/processor.py:99-107 | the loop's updates after `_categorize_single_email` add up to one tally |
| Processor.CategorizeStep | src/gmail_categorizer/processor.py:99-107 | one pass of the loop extends the results and the tally |
| Processor.ResultOfLookup | src/gmail_categorizer/processor.py:149-151 | a result depends on the state only through the lookup cache |
| Processor.MapResultsPointwise | src/gmail_categorizer/processor.py:97-101 | one result per message, in order |
| Processor.TallyAll | src/gmail_categorizer/processor.py:97-107 | after the loop: categorised + successes, failed + failures, errors + failure messages |
| Processor.EffectiveQuery | src/gmail_categorizer/processor.py:58 | `query or self.config.gmail_query` |
| Processor.EffectiveMax | src/gmail_categorizer/processor.py:59 | `max_messages or self.config.max_messages_per_batch` |
| Processor.Finish | src/gmail_categorizer/processor.py:95-132 | the main path after fetching: categorise, label when asked, set the end time and build the report |
| Processor.Process | src/gmail_categorizer/processor.py:38-143 | the function `process_emails` computes, with its four exits: a failed listing, no ids, no fetched messages, and the main path |
| Processor.ProcessEndsListingFailed | src/gmail_categorizer/processor.py:134-143 | a failed listing of ids ends the run with that error |
| Processor.ProcessEndsNoIds | src/gmail_categorizer/processor.py:72-74 | no ids: an empty report |
| Processor.ProcessEndsNoMessages | src/gmail_categorizer/processor.py:88-93 | nothing fetched: an empty report |
| Processor.ProcessEndsFinished | src/gmail_categorizer/processor.py:95-132 | otherwise the batch is categorised, labelled and reported |
| Processor.FinishCounts | src/gmail_categorizer/processor.py:97-125 | total = results = fetched = successful + failed, matching the statistics |
| Processor.FinishCalls | src/gmail_categorizer/processor.py:97-125 | the batch's Gmail calls are listings, creations and applications |
| Processor.ProcessCounts | src/gmail_categorizer/processor.py:38-143 | for every run: total = results = successful + failed, and the statistics agree with the report |
| Processor.ProcessErrors | src/gmail_categorizer/processor.py:72-125 | errors = failed fetches + failed results, and `messages_processed` = the fetched count |
| Processor.FetchingFacts | src/gmail_categorizer/processor.py:78-88 | fetching counts one call per message and sets the processed count |
| Processor.ProcessGmailCalls | src/gmail_categorizer/processor.py:63-125 | every Gmail call counted is the id listing, a fetch, a label listing, a creation or an application |
| Processor.ListingCalls | src/gmail_categorizer/processor.py:63-70 | the calls before fetching |
| Processor.MainCalls | src/gmail_categorizer/processor.py:95-125 | the calls after fetching |
| Processor.ProcessCreatedCount | src/gmail_categorizer/processor.py:38-143 | `categories_created` counts exactly the labels the run created |
| Processor.ProcessListingFails | src/gmail_categorizer/processor.py:134-143 | a failed listing reports only that error, logs it and sets the end time |
| Processor.FinishResults | src/gmail_categorizer/processor.py:97-125 | a batch's results follow the fetched messages |
| Processor.ProcessResults | src/gmail_categorizer/processor.py:72-125 | one result per fetched message in id order, each succeeding iff classifying did not raise |
| Processor.NoMessagesNoResults | src/gmail_categorizer/processor.py:72-93 | nothing fetched means no results |
| Processor.ProcessFinishes | src/gmail_categorizer/processor.py:91-125 | something fetched means the batch's results |
| Processor.RealClassifierNoFailures | src/gmail_categorizer/processor.py:97-107 | with the real categoriser nothing fails, and the only errors are the failed fetches |
| Processor.EmailProcessor.constructor | src/gmail_categorizer/processor.py:25-36 | empty caches and fresh statistics |
| Processor.EmailProcessor.BuildLabelLookupCache | src/gmail_categorizer/processor.py:232-248 | the fields afterwards are `RefreshLookup` of the fields before |
| Processor.EmailProcessor.BuildLabelCache | src/gmail_categorizer/processor.py:250-271 | the fields afterwards are `RefreshCache` of the fields before |
| Processor.EmailProcessor.GetOrCreateLabel | src/gmail_categorizer/processor.py:273-314 | the fields and the id are those of `GetOrCreate` |
| Processor.EmailProcessor.GetCurrentCategory | src/gmail_categorizer/processor.py:180-191 | returns `CurrentCategory` of the lookup cache and changes nothing |
| Processor.EmailProcessor.GroupResults | src/gmail_categorizer/processor.py:199-213 | `category_groups`: keys in first-appearance order, each with its members |
| Processor.EmailProcessor.AddLabelToGroup | src/gmail_categorizer/processor.py:223-230 | the fields afterwards are `AddAll` of the fields before |
| Processor.EmailProcessor.ApplyLabelsToEmails | src/gmail_categorizer/processor.py:193-230 | the fields afterwards are `ApplyLabels` of the fields before |
| Processor.EmailProcessor.CategorizeSingleEmail | src/gmail_categorizer/processor.py:145-178 | the fields and the result are those of `CategorizeSingle` |
| Processor.EmailProcessor.FetchMessages | src/gmail_categorizer/processor.py:78-88 | the fields and the messages are those of `FetchAll` |
| Processor.EmailProcessor.CategorizeMessages | src/gmail_categorizer/processor.py:97-107 | the results are the pointwise results, and the statistics afterwards are their tally |
| Processor.EmailProcessor.ProcessEmails | src/gmail_categorizer/processor.py:38-143 | the fields and the report are those of `Process`, about which the Process* lemmas above hold |
| Processor.EmailProcessor.FinishBatch | src/gmail_categorizer/processor.py:95-132 | the fields and the report are those of `Finish` |

## Left out

- Network and authentication: OAuth, the token file and the API transport. The label service is an abstract server value. Listing message ids and fetching one message are mailbox functions.
- The chat-completion call. It is a function from request to reply. An empty `choices` list, which would raise IndexError inside the caught block, is not distinguished from other failures.
- Retry and backoff timing of the tenacity decorators. No sleeps or attempt counts are modelled. The text of the RetryError that `create_label` raises as written is modelled only in `LabelService.CreateLabelAsWritten` and `Processor.ConflictLostAsWritten`; the run does not use it.
- `json.loads`, base64url decoding and `strptime`. They are inputs: a decoded value, and functions passed in. Which data makes `urlsafe_b64decode` fail is up to the decoding function.
- Clocks: no `time.time` or `datetime.now`. Start and end times are arguments, and `processing_time` is not a field of the records.
- `average_confidence` and its rounding to three places.
- Binary floating point and NaN. Confidences and temperatures are real numbers, so `0.5 - 0.3` is exact.
- Unicode letter case: `lower`, `upper` and the regex `\b` are modelled on ASCII letters and digits only. `strip` removes the full whitespace set of `str.isspace`.
- Path handling of `pathlib`: joining is a plain concatenation with "/", on POSIX paths only. The model does not normalise "." or "..". It does not drop a trailing "/" in the name, so `Path("/p") / "tok/"` is "/p/tok" but the model gives "/p/tok/". It does not collapse "//" inside the name. It does not handle an empty name, where `Path(root) / ""` is the root itself.
- pydantic's type coercion, the `raw_message` field and loading settings from the environment. The project root is a parameter.
- Concurrency. `process_emails_concurrent` is called by the CLI but not defined in the processor. Other clients of the account appear only as labels that show up before the next create.
- Coroutines: `categorize_emails_batch` is `async def`, and its body never awaits. The model treats it as a plain call, so its error stands for the one raised when the coroutine is awaited.
- The CLI, result export and logging, including the warning for more than 20 categories.
- `get_processing_stats`, `validate_setup` and the push-notification wrappers.
- The writes to the client's unused `_labels_cache` attribute.
- The assertion in the configuration tests that the default model is "gpt-4". The code says "gpt-4o-mini", and the model follows the code.
- Processor.GetOrCreate: the create step is `LabelService.CreateLabel`, which behaves as if `create_label` re-raised the HttpError. As written, the error arrives as a RetryError and a conflict is recovered only when the future's address contains "409" (Findings, second row). That as-written step exists only in `LabelService.CreateLabelAsWritten` and `Processor.ConflictLostAsWritten`. A server error whose own text contains "409" or "exists" is likewise taken for a conflict here, but not as written.
- Processor.EmailProcessor.ProcessEmails: the run uses `CreateLabel` in the same way as `Processor.GetOrCreate`. So a run whose create meets a conflict recovers the label and applies it, where the code as written usually returns none and labels nothing for that group.
- Processor.EmailProcessor.ProcessEmails: the only exception the model carries to the run's handler is a failed listing of ids. Exceptions outside the Gmail HTTP errors are not modelled, such as a transport failure while applying a label, which would escape `add_label_to_message` as a retry error.
- MimeParse.ParseMessage: header names and values are strings or absent. Values of other JSON types are not modelled.

## Findings

| source | as written | input that shows it | evidently intended | confidence | as-written member | corrected member |
|---|---|---|---|---|---|---|
| src/gmail_categorizer/gpt_categorizer.py:230-234 | after the loop the log line divides the elapsed time by `len(emails)` | awaiting `categorize_emails_batch([])` raises ZeroDivisionError | an empty batch returns [] | not executed | Categorizer.CategorizeBatchAsWritten | Categorizer.CategorizeBatch |
| src/gmail_categorizer/gmail_client.py:267-270 | `create_label` retries with tenacity without `reraise=True`, so a 409 HttpError reaches `_get_or_create_label` as a RetryError. That text ("RetryError[<Future at 0x… state=finished raised HttpError>]") never contains "exists", and contains "409" only when the future's hex address does, so the conflict branch at processor.py:305-311 is not taken unless the future's address contains 409 | another client creates the label between the refresh at processor.py:280 and the create | the conflict is recognised, the cache rebuilt and the existing label's id returned | not executed | Processor.ConflictLostAsWritten | Processor.ConflictRecovers |
