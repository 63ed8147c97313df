# PlaniX security scoring, model selection and report export

PlaniX is a Django application that turns a project description into a
security-planning report. This project models its three pieces of logic:

- **The hybrid risk scorer** (`SecurityScoring`).
  - A deterministic rule score comes from the project's risk level, platform, scale and budget. It is clamped to [0, 100].
  - An adjustment in [0, 10] is read from the text provider's reply by joining every digit of the reply into one integer.
  - The two are blended as `base + 2 * adj` and clamped again. The blend is then put in one of three risk categories.
- **The provider client** (`AiClient`).
  - The choice of a model that supports content generation, which is kept in a process-wide cache. This is modelled as the class `GeminiClient` with a `cachedModel` field.
  - The guard clauses of the generation call. They always answer with a string: the generated text, or an `ERROR:` or `AI Error:` sentinel.
- **The export views** (`ExportViews`).
  - The fixed plain-text rendering of one stored analysis, with the surrounding whitespace stripped.
  - The Markdown and plain-text attachments of one analysis.
  - The history archive, which holds one Markdown entry per analysis, or a message when a project has none.

Supporting modules:

- `Records` holds the stored `Project` and `ProjectAnalysis` shapes.
- `Text` holds the Python string built-ins the code relies on: `str.isdigit`, `int()`, `str(int)`, `str.lower`, `str.startswith`, `str.replace(p, "")` and `str.strip()`. They are defined over ASCII.
- `Wrappers` holds `Option`.

The provider library is not modelled. What it would return is passed in as a parameter:

- the model listing, or the exception raised while listing (`Listing`);
- the outcome of a generation request (`Generation`).

Whether an API key is configured is fixed when a `GeminiClient` is created. `slugify`, `str(datetime)` and `strftime` are supplied as functions (`Formatters`).

Where the model follows the code rather than what its comments suggest:

- The comment `# fallback if AI fails` (core/services/security_scoring.py:75) suggests that a failed provider call adds nothing to the score. The code instead filters the digits of whatever string comes back, including its error sentinels.
  - A reply `"AI Error: 429 ..."` gives the maximum adjustment of 10 (`RateLimitErrorSaturates`). The blend doubles the adjustment (core/services/security_scoring.py:90), so it adds 20 points to the score.
  - A failed model listing is passed on as `"ERROR: Could not list models from Gemini. Details: ..."`, and the digits of those details count in the same way (`ListingFailureAdjustsByDetailDigits`, `ListingRateLimitSaturates`).
  - A reply of `"7/10"` reads as 710 and also gives 10 (`SevenOutOfTenSaturates`).
  - The model keeps this behaviour.

The history archive takes the analyses in the order the creation-time query returns them. Entry `i` is built from analysis `i`.

## Model

| member | source | states |
|---|---|---|
| Records.NewAnalysis | core/models/project_analysis.py:6-19 | a new analysis keeps its project and creation time and starts with score 0 and category "Unknown" |
| SecurityScoring.RuleScore | core/services/security_scoring.py:50 | the rule score lies in [0, 100] and equals the raw sum whenever that sum is at most 100 |
| SecurityScoring.CalculateRuleScore | core/services/security_scoring.py:5-50 | RiskWeight, PlatformWeight, ScaleWeight, ExpectedBudget, BudgetAdjustment and RawRuleScore give the weights and defaults of lines 9-47; the accumulated score (risk, platform and scale weights with their defaults, then +20 or -10 for the budget) equals the clamped rule score and lies in [0, 100] |
| SecurityScoring.RawRuleScoreRange | core/services/security_scoring.py:9-50 | the raw sum (RawRuleScore) is always between 10 and 135, so the lower clamp never fires and the score is min(raw, 100) |
| SecurityScoring.RuleScoreMonotoneInRiskLevel | core/services/security_scoring.py:9-14 | with the other attributes fixed, the rule score does not fall as the risk level goes low, medium, high |
| SecurityScoring.UnrecognisedScaleTakesPenalty | core/services/security_scoring.py:28-47 | a scale other than small/medium/large weighs 10 and expects a budget of 0, so every budget takes the -10 |
| SecurityScoring.ScaleIsCaseInsensitive | core/services/security_scoring.py:33-42 | two scale spellings with the same lower-case form give the same rule score |
| SecurityScoring.PreLoweredScaleScoresAlike | core/services/security_scoring.py:33-42 | lower-casing the stored scale beforehand does not change the rule score |
| SecurityScoring.HighRiskIotExample | core/services/security_scoring.py:9-50 | a high-risk, large IoT project with budget 50000 sums to 135, scores 100, and is "High Risk" whatever the reply |
| SecurityScoring.AiRiskAdjustment | core/services/security_scoring.py:71-75 | the adjustment lies in [0, 10]; a reply without digits gives 0; otherwise it is the value of the reply's digits read as one number (DecimalValue, `int()`) when that value is below 10, and 10 when it is 10 or more |
| SecurityScoring.AdjustmentZeroIff | core/services/security_scoring.py:71-75 | the adjustment is 0 exactly when every digit of the reply is '0' (including the case of no digits) |
| SecurityScoring.AdjustmentSaturates | core/services/security_scoring.py:72-73 | two or more digits led by a non-zero one, wherever they stand in the reply, give 10 |
| SecurityScoring.AdjustmentOfSingleDigit | core/services/security_scoring.py:72-73 | a reply whose only digit is c gives the value of c |
| SecurityScoring.SevenOutOfTenSaturates | core/services/security_scoring.py:72-73 | the reply "7/10" gives 10 |
| SecurityScoring.GetAiRiskAdjustment | core/services/security_scoring.py:53-75 | the adjustment is read from the client's reply; without an API key it is 0; the client's cache moves as the model selection says |
| SecurityScoring.FinalScore | core/services/security_scoring.py:90-96 | the blend lies in [0, 100] and equals base + 2 * adj whenever that is in range |
| SecurityScoring.FinalScoreNeverBelowBase | core/services/security_scoring.py:87-96 | for a rule score and adjustment in their ranges, the final score is min(base + 2 * adj, 100), never below the rule score |
| SecurityScoring.RiskCategory | core/services/security_scoring.py:78-83 | "High Risk" iff score >= 70, "Medium Risk" iff 40 <= score < 70, "Low Risk" iff score < 40; never "Unknown" |
| SecurityScoring.ScoredCategoryDiffersFromDefault | core/models/project_analysis.py:18-19 | a freshly created analysis has score 0 and the category "Unknown", which no score's category ever equals |
| SecurityScoring.CalculateFinalSecurityScore | core/services/security_scoring.py:86-100 | the score is the clamped blend of the rule score and the reply's adjustment, in [0, 100], and the category is the one for that score |
| SecurityScoring.NoApiKeyReplyAdjustsByZero | core/services/ai_client.py:98-99 | the no-key sentinel has no digits and adjusts the score by 0 |
| SecurityScoring.NoModelReplyAdjustsByZero | core/services/ai_client.py:103-104 | the default no-model sentinel has no digits and adjusts the score by 0 |
| SecurityScoring.NoTextReplyAdjustsByZero | core/services/ai_client.py:113 | the no-text sentinel has no digits and adjusts the score by 0 |
| SecurityScoring.AiErrorReplyAdjustsByMessageDigits | core/services/ai_client.py:115-116 | an "AI Error: " reply adjusts by exactly what the exception message's digits give |
| SecurityScoring.RateLimitErrorSaturates | core/services/ai_client.py:115-116 | an "AI Error: 429 ..." reply with no further digits adjusts by the maximum 10 |
| SecurityScoring.ListingFailureAdjustsByDetailDigits | core/services/ai_client.py:54-56 | a failed model listing reaches the scorer as "ERROR: Could not list models from Gemini. Details: <details>" and adjusts by exactly what the digits of the details give |
| SecurityScoring.ListingRateLimitSaturates | core/services/ai_client.py:54-56 | a listing that fails with details "429 ..." and no further digit adjusts by the maximum 10 |
| SecurityScoring.ReplyAdjustment | core/services/ai_client.py:101-116 | once a key is configured, a missing or empty model and a text-less response adjust by 0; an error string from the selection adjusts by its own digits; a failed generation adjusts by its message's digits; generated text adjusts by its own digits |
| AiClient.Available | core/services/ai_client.py:35-39 | a name is available iff some listed model supporting generateContent has it as short name; the first available name is that of the first such model; none are available iff no model supports generateContent |
| AiClient.FirstPreferred | core/services/ai_client.py:41-44 | the result is available and is the earliest preference that is available; nothing is found iff no preference is available |
| AiClient.Select | core/services/ai_client.py:25-56 | a failure is a string starting with "ERROR:"; a chosen name is available; from a listing, a name is chosen iff some model is available, and otherwise the result is the no-models message; a failed listing gives "ERROR: Could not list models from Gemini. Details: " followed by the details |
| AiClient.SelectHonoursPreference | core/services/ai_client.py:28-44 | when preference i is the earliest available, it is the one chosen |
| AiClient.SelectFallsBackToFirstAvailable | core/services/ai_client.py:46-49 | with no preference available, the first available name is chosen: that of the first listed model supporting generateContent |
| AiClient.ShortNameDropsPrefix | core/services/ai_client.py:35-39 | a listed "models/<name>" whose name does not contain "models/" has short name <name>, so it is available as <name> exactly when it supports generateContent |
| AiClient.Reply | core/services/ai_client.py:101-116 | generated text is returned verbatim from a usable model; an error-valued model name is returned as it is; a missing or empty name gives the default no-model message; a response without text gives "ERROR: No text response from model."; a failed generation gives "AI Error: " followed by its message; every reply other than generated text starts with "ERROR:" or "AI Error:" |
| AiClient.GeminiClient.constructor | core/services/ai_client.py:4-10 | a client starts with the configured key and an empty cache |
| AiClient.GeminiClient.CacheAfter | core/services/ai_client.py:41-56 | when the listing is consulted and a model is chosen, that name is cached; the cache changes in no other case, and only ever to an available name |
| AiClient.GeminiClient.GetAvailableModel | core/services/ai_client.py:13-56 | the result is ModelFor(listing), the answer the function defines: a non-empty cached name is returned without listing; without a key, nothing; otherwise the preference search of the selection, caching a chosen name and leaving the cache alone on an error |
| AiClient.GeminiClient.GenerateAiAnalysis | core/services/ai_client.py:59-116 | without a key the no-key sentinel and no listing; otherwise the reply for the selected model and the generation outcome, with the cache updated as the selection says |
| AiClient.SelectTwice | core/services/ai_client.py:19-20 | once a non-empty name has been chosen, the next selection returns it without listing, whatever the provider would list |
| ExportViews.StripTemplate | core/views/export_views.py:13-40 | stripping the template removes only the leading newline and the whitespace after the last field, and also the final heading's newline when that field is blank |
| ExportViews.BuildExportContent | core/views/export_views.py:12-40 | the export is the fixed headings interleaved with the fields in order, each verbatim except the testing plan, which loses its trailing whitespace; when the testing plan is blank, the newline after its heading's rule goes too |
| ExportViews.ExportLayout | core/views/export_views.py:12-40 | the export opens with the preamble and so with "Security Analysis Report" |
| ExportViews.PreambleEndsWithScoreLine | core/views/export_views.py:17-19 | after the project and date lines comes "Security Score: <score> (<category>)" |
| ExportViews.MarkdownAndTextExportsAgree | core/views/export_views.py:43-60 | the two single-analysis exports (ExportAnalysisMd, ExportAnalysisTxt) carry the same text, differ in content type, and are named analysis_<id>.md and analysis_<id>.txt |
| ExportViews.ExportAnalysisHistoryZip | core/views/export_views.py:63-84 | no analyses iff the reply is the message "No analyses available to export."; otherwise an archive named <slug>_analysis_history.zip with one entry per analysis in the given order, named <slug>_<stamp>.md and holding that analysis's export (HistoryEntry, lines 74-75) |
| ExportViews.HistoryEntriesAreReports | core/views/export_views.py:73-76 | every archive entry opens with the report preamble and title |
| Text.Digits | core/services/security_scoring.py:72 | the filtered text is all digits, no longer than the input, and empty iff the input has no digit |
| Text.DigitsOfChar | core/services/security_scoring.py:72 | one character is kept exactly when it is a digit |
| Text.DigitsAppend | core/services/security_scoring.py:72 | filtering a concatenation concatenates the filtered parts, so with DigitsOfChar the result is the input's digits in order |
| Text.DigitsOfDigitString | core/services/security_scoring.py:72 | a string of digits is its own filter |
| Text.NatToDecimalRoundTrip | core/views/export_views.py:19 | reading back (DecimalValue) a rendered natural number gives the number |
| Text.IntToDecimal | core/views/export_views.py:19 | the rendering of an integer reads back to it, with a leading '-' for a negative one and no leading zero except for 0 itself |
| Text.DecimalValueZero | core/services/security_scoring.py:72 | DecimalValue models `int()` on a digit string; a digit string reads as 0 iff all its digits are '0' |
| Text.ToLower | core/services/security_scoring.py:33 | lower-casing keeps the length, leaves no upper-case letter, keeps every other character, and moves each upper-case letter to its lower-case form |
| Text.ToLowerIdempotent | core/services/security_scoring.py:33 | lower-casing twice is lower-casing once |
| Text.RemoveAllSpec | core/services/ai_client.py:36 | RemoveAll models `str.replace(p, "")`: a name without "models/" comes back unchanged, and a name with it loses at least its length |
| Text.RemoveAllFirstOccurrence | core/services/ai_client.py:36 | the text before the first occurrence is kept, the occurrence is dropped, and the scan continues after it |
| Text.LStripSpec | core/views/export_views.py:40 | what `lstrip` removes is all whitespace, and what it keeps is a suffix that does not open with whitespace; Strip is RStrip after LStrip, as `str.strip()` |
| Text.RStripSpec | core/views/export_views.py:40 | what `rstrip` removes is all whitespace, and what it keeps is a prefix that does not close with whitespace |
| Text.RStripAppend | core/views/export_views.py:40 | right-stripping a concatenation keeps the left part when the right part has a non-space character, and otherwise continues into the left part |

## Left out

- The provider library (`genai.configure`, `list_models`, `GenerativeModel.generate_content`): its results are the `Listing` and `Generation` parameters. `os.getenv` is the client's `hasApiKey`. The `print` calls are not modelled.
- Prompt construction in `get_ai_risk_adjustment` and in the analysis view: it only feeds the provider call, which is a parameter here.
- The counter `listings` on `GeminiClient` is ghost bookkeeping for "no listing happens". It has no counterpart in the code.
- Django plumbing is not modelled: views, `HttpResponse` headers other than the attachment filename, `login_required`, `get_object_or_404`, and the URL routing.
- Ownership filtering by the requesting user is not modelled. `Records` has no `user` field.
- The ORM query and its `created_at` ordering are not modelled: the history export takes the analyses already in query order.
- `slugify`, `str(datetime)` and `strftime('%Y-%m-%d_%H-%M')` are opaque functions in `Formatters`. Because of this, two analyses created in the same minute get the same entry name, and the model keeps both entries.
- Zip compression, `io.BytesIO` and the archive's byte layout are not modelled: the archive is its sequence of (filename, content) entries.
- `core/views/analysis_views.py` stores the provider text without parsing it or calling the scorer, so it is not part of this model. `core/models.py` is a stale schema and is not part of this model. Section extraction and the history trend view do not exist in the code.
- SecurityScoring.AiRiskAdjustment: defined over ASCII digits only. Python's `str.isdigit` also accepts other Unicode digits, on which `int()` may raise (giving 0). Python's limit of 4300 digits on `int()` of a string, beyond which it raises, is also not modelled.
- Text.ToLower, Text.Strip: ASCII case mapping and the ASCII whitespace set only.
- The model assumes `analysis_id` is an integer and renders it with `str(int)`. The routes to the export views are not part of this model, so other identifier types are not modelled.
