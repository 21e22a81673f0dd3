# DSFA risk engine: a Dafny model

This project models the decision kernel of a data-protection impact assessment
(DSFA, "Datenschutz-Folgenabschätzung") tool under the Swiss data protection act (DSG),
together with the two pure string helpers that render its AI summary.

- `calculateRiskAssessment` (lib/dsfa.ts) turns the boolean flags of a processing
  profile into:
  - findings `risk-1` to `risk-7`, each with a fixed likelihood, impact and severity;
  - recommendations `rec-1` to `rec-5`;
  - an overall risk level from a cascade on the severity counts;
  - an Art. 22 DSG compliance verdict with an ordered list of issues.

  The recommendations are returned after a stable sort by descending priority.
- `escapeHtml` (components/RiskAssessment.tsx) replaces `& < > " '` by their
  entities in five passes.
- `renderAiSummary` (components/RiskAssessment.tsx):
  1. splits the summary at line feeds, trims every line and drops empty lines;
  2. HTML-escapes each line and wraps `**…**` in `<strong>`;
  3. turns `N. ` lines into `<ol>` items, `- ` lines into `<ul>` items and any other line into a `<p>`.

  The two flags `inUl` and `inOl` track which list is open, and `closeLists` closes it.

## Modules

| file | module | what it holds |
|---|---|---|
| options.dfy | `Options` | `Option<T>` |
| dsfa_types.dfy | `DsfaTypes` | levels, categories, risk and recommendation ids with their id strings, `Risk`, `Recommendation`, `ComplianceStatus`, `RiskResult`, the 27-field `DsfaData` profile |
| findings.dfy | `Findings` | the trigger table, the fixed records, the generation of findings and recommendations, the severity counts |
| priority_sort.dfy | `PrioritySort` | the stable sort by priority and its reference, the bucket form |
| assessment.dfy | `Assessment` | the overall-risk cascade, the compliance check, `CalculateRiskAssessment` and the properties of the whole result |
| html_escape.dfy | `HtmlEscape` | `escapeHtml` as written (five passes), its character-wise reference and an unescaper |
| text_lines.dfy | `TextLines` | `split('\n')`, JavaScript `trim()` and `filter(Boolean)` |
| strong_markup.dfy | `StrongMarkup` | the global lazy replacement `/\*\*(.+?)\*\*/g` → `<strong>$1</strong>` and its inverse |
| summary_render.dfy | `SummaryRender` | line classification, the `inUl`/`inOl` state machine, `closeLists`, and two partners: `Parse`, the recogniser of well-nested output, and `Groups`, the reference grouping of lines into maximal lists |

### Modelling choices

**Findings and recommendations**
- Each trigger is an entry of a table: an id, a condition on the profile (`Fires`, `RecFires`) and a fixed record.
- Generation runs the table in source order, so the order of the `push` calls is part of the model.
- `GenerateRisksUnrolled` and `GenerateRecommendationsUnrolled` state that the table run equals the source's sequence of guarded pushes.

**The sort**
- `Array.prototype.sort` is stable. The comparator `order[b] - order[a]` is a total preorder on priorities.
- A stable sort under a total preorder has only one possible output. The model therefore uses a stable insertion sort.
- `SortIsBucketed` proves that this output equals the bucket reference (high, then medium, then low, each group in input order).

**HTML output**
- `renderAiSummary` pushes fragments into an array and joins them. The model keeps those fragments as `Piece` values, and `RenderAiSummary` concatenates their HTML.
- The well-nesting property is stated on the fragment sequence.
- The list grouping is stated against a reference: `Groups` cuts the blocks into maximal runs of numbered items, maximal runs of bullet items and single paragraphs, and `EmitGroups` renders each run as one whole list.

**Characters**
- Characters are Unicode scalar values.
- The JavaScript white-space set of `trim()` and `\s` is written out character by character in `TextLines.IsSpace`.
- The set of characters that `.` does not match is written out in `TextLines.IsLineTerminator`.

### Behaviour worth knowing

- **Severities are literals.** Each finding's severity is written into its record; it is not computed from likelihood and impact.
  - `risk-2` has likelihood medium, impact high and severity high.
  - `risk-6` has the same likelihood and impact but severity medium.
  - `Assessment.SeverityNotDerivedFromLikelihoodAndImpact` states this. The risk card text at components/RiskAssessment.tsx:363-364 nevertheless says the severity results from likelihood and impact.
- **`risk-4` always has likelihood medium.** The third-country detail text is not read.
- **Only the high count decides the overall risk.**
  - Two or more high findings give high, one gives medium, none gives low.
  - The `mediumSeverityRisks >= 3` disjunct can never decide, because at most two findings are medium (`Assessment.MediumCountBranchUnreachable`).
  - The overall risk therefore depends only on the five risk-factor flags (`Assessment.OverallRiskByFactors`).
- **High risk does not make the verdict fail.**
  - The verdict fails exactly when sensitive data is processed without encryption.
  - `Assessment.HighRiskCanBeCompliant` gives a whole class of high-risk profiles with a clean verdict.
- **The encryption finding keeps severity medium even with sensitive data.** A profile with only sensitive data and no encryption therefore gets overall risk medium (`Assessment.SensitiveDataWithoutEncryption`).
- **No decision log and no risk summary.** components/DecisionLog.tsx:13 and components/RiskSummary.tsx:13 read `result.decisionLog` and `result.riskSummary`. The `RiskResult` type (lib/dsfa.ts:62-70) declares neither field and `calculateRiskAssessment` sets neither, so both components render nothing for its results.

## Model

| member | source | states |
|---|---|---|
| DsfaTypes.RiskNamesDistinct | lib/dsfa.ts:79-226 | the seven finding ids `risk-1`…`risk-7` are pairwise different strings |
| DsfaTypes.RecNamesDistinct | lib/dsfa.ts:94-237 | the five recommendation ids `rec-1`…`rec-5` are pairwise different strings |
| Findings.GenerateRisksSpec | lib/dsfa.ts:78-226 | the findings come in the fixed order `risk-1`…`risk-7`; a finding is present exactly when its trigger's condition holds (sensitive data, large scale, automated decisions, third country, monitoring, no encryption, no access controls); each is its trigger's fixed record; findings 1-5 have severity high and 6-7 severity medium |
| Findings.GenerateRisksUnrolled | lib/dsfa.ts:78-226 | the table-driven generation equals the source's seven guarded pushes in source order |
| Findings.GenerateRisks | lib/dsfa.ts:78-226 | step one for findings, the seven guarded `risks.push` calls; what it returns is stated by `GenerateRisksSpec` (order, presence exactly when the trigger fires, fixed records, severities) and `GenerateRisksUnrolled` (equal to the pushes in source order) |
| Findings.RunRiskTriggersIds | lib/dsfa.ts:78-226 | running any part of the finding table yields exactly the ids of that part whose condition holds |
| Findings.RunRiskTriggersOrder | lib/dsfa.ts:78-226 | running a strictly increasing part of the finding table yields findings in strictly increasing id order, so no id repeats |
| Findings.RunRiskTriggersRecords | lib/dsfa.ts:78-226 | every pushed finding is the fixed record of its id |
| Findings.FixedRecordsSeverity | lib/dsfa.ts:86-219 | a fixed finding record has severity high for ids 1-5 and medium for 6-7 |
| Findings.GenerateRecommendationsSpec | lib/dsfa.ts:94-237 | the recommendations come in the order `rec-1`…`rec-5`; one is present exactly when its trigger's condition holds (sensitive data, automated decisions, third country, no encryption, no data minimisation); none is low; `rec-1`…`rec-3` are high and `rec-4`, `rec-5` medium, so generation order is already sorted |
| Findings.GenerateRecommendationsUnrolled | lib/dsfa.ts:94-237 | the table-driven generation equals the source's five guarded pushes in source order |
| Findings.GenerateRecommendations | lib/dsfa.ts:94-237 | step one for recommendations, the five guarded `recommendations.push` calls; what it returns is stated by `GenerateRecommendationsSpec` and `GenerateRecommendationsUnrolled` |
| Findings.RunRecTriggersIds | lib/dsfa.ts:94-237 | running any part of the recommendation table yields exactly the ids of that part whose condition holds |
| Findings.RunRecTriggersOrder | lib/dsfa.ts:94-237 | recommendations come in strictly increasing id order |
| Findings.FixedRecRecordsPriority | lib/dsfa.ts:94-237 | a fixed recommendation record has priority high for ids 1-3 and medium for 4-5 |
| Findings.CountSeverityRun | lib/dsfa.ts:240-241 | counting findings of a severity equals counting the firing triggers whose record has that severity |
| Findings.SeverityCounts | lib/dsfa.ts:240-241 | the high count equals the number of set risk-factor flags among the five, the medium count the number of missing safeguards (encryption, access controls), and the low count is 0 |
| Findings.SeverityCount | lib/dsfa.ts:240-241 | the same count, for one severity at a time |
| Assessment.CalculateRiskAssessment | lib/dsfa.ts:72-279 | the overall risk is high with two or more set risk-factor flags, medium with one, low with none; the verdict fails exactly when sensitive data is processed without encryption; the returned recommendations are sorted and equal the generated ones in generation order |
| Assessment.CheckCompliance | lib/dsfa.ts:251-265 | the verdict fails exactly when the encryption issue is raised, which is exactly when sensitive data lacks encryption; the large-scale issue is raised exactly when large-scale processing lacks minimisation and never changes the verdict; with both issues the encryption issue comes first |
| Assessment.OverallRisk | lib/dsfa.ts:243-248 | with fewer than three medium findings the cascade gives the level of the high count alone: high from two, medium at one, low at none; `MediumCountBranchUnreachable` shows the medium count is always below three |
| Assessment.MediumCountBranchUnreachable | lib/dsfa.ts:240-248 | at most two findings have medium severity, so the `mediumSeverityRisks >= 3` disjunct never changes the cascade's result |
| Assessment.OverallRiskByFactors | lib/dsfa.ts:243-248 | overall risk high ⇔ at least two set risk-factor flags; medium ⇔ exactly one; low ⇔ none |
| Assessment.OverallRiskOnlyFromFactors | lib/dsfa.ts:243-248 | two profiles that agree on the five risk-factor flags get the same overall risk |
| Assessment.Art22OnlyFromSensitiveAndEncryption | lib/dsfa.ts:252-257 | two profiles that agree on sensitive data and encryption get the same verdict |
| Assessment.OnlyTriggerFlagsMatter | lib/dsfa.ts:72-279 | two profiles that agree on the eight flags read by triggers and compliance get identical results |
| Assessment.SameFiringSameRisks | lib/dsfa.ts:78-226 | profiles on which the same finding triggers fire produce the same findings |
| Assessment.SameFiringSameRecommendations | lib/dsfa.ts:94-237 | profiles on which the same recommendation triggers fire produce the same recommendations |
| Assessment.ProfilingHasNoEffect | lib/dsfa.ts:263-265 | changing the profiling flag changes no field of the result |
| Assessment.RiskIdStringsUnique | lib/dsfa.ts:79-226 | no two findings of a result share an id string |
| Assessment.RecIdStringsUnique | lib/dsfa.ts:94-237 | no two recommendations of a result share an id string |
| Assessment.HighRiskCanBeCompliant | lib/dsfa.ts:243-261 | large scale plus monitoring with all safeguards and minimisation give overall risk high together with a passing verdict and no issues |
| Assessment.SensitiveDataWithoutEncryption | lib/dsfa.ts:79-257 | sensitive data without encryption (access controls present, no other factor) yields exactly `risk-1`, `risk-6`, overall risk medium, a failing verdict and only the encryption issue |
| Assessment.MinimizationRecommendationWithoutRisk | lib/dsfa.ts:228-237 | missing minimisation alone yields `rec-5` with no finding, low risk and a passing verdict |
| Assessment.SeverityNotDerivedFromLikelihoodAndImpact | lib/dsfa.ts:108-195 | `risk-2` and `risk-6` share likelihood medium and impact high but have severities high and medium |
| PrioritySort.SortByPriorityCorrect | lib/dsfa.ts:270-273 | the sort returns a permutation of its input, ordered by non-increasing priority, and each priority group keeps its input order (stability) |
| PrioritySort.SortByPriority | lib/dsfa.ts:270-273 | the stable sort by the comparator `order[b] - order[a]`; its contract is stated by `SortByPriorityCorrect` (permutation, ordered, stable) and `SortIsBucketed` (equal to the bucket reference) |
| PrioritySort.SortIsBucketed | lib/dsfa.ts:270-273 | the sort equals the reference: the high recommendations, then the medium, then the low, each in input order |
| PrioritySort.BucketedPermutes | lib/dsfa.ts:270-273 | the reference is a permutation of its input |
| PrioritySort.BucketedSorted | lib/dsfa.ts:270-273 | the reference is ordered by non-increasing priority |
| PrioritySort.BucketedStable | lib/dsfa.ts:270-273 | the reference keeps each priority group in input order |
| PrioritySort.InsertBucketed | lib/dsfa.ts:270-273 | inserting one element into a bucketed sequence gives the bucket form of the extended input |
| PrioritySort.SortedUnchanged | lib/dsfa.ts:270-273 | an already sorted sequence is returned unchanged |
| HtmlEscape.EscapeHtmlCorrect | components/RiskAssessment.tsx:150-156 | the output holds no `<`, `>`, `"` or `'`; every `&` starts one of the five entities; strings without the five characters are unchanged; unescaping gives back the input, so nothing is escaped twice |
| HtmlEscape.EscapeHtml | components/RiskAssessment.tsx:150-156 | the five `replace` passes in source order; its contract is stated by `EscapeHtmlCorrect` and `EscapeHtmlIsCharwise` |
| HtmlEscape.EscapeHtmlIsCharwise | components/RiskAssessment.tsx:150-156 | the five passes equal replacing every character by its own entity in one pass |
| HtmlEscape.EscapeHtmlConcat | components/RiskAssessment.tsx:150-156 | escaping distributes over concatenation |
| HtmlEscape.EscapeHtmlChar | components/RiskAssessment.tsx:150-156 | a single character is escaped to its entity, or kept if not special |
| HtmlEscape.EscapeEachSafe | components/RiskAssessment.tsx:150-156 | the character-wise escape leaves no raw `<`, `>`, `"`, `'`, and every `&` starts an entity |
| HtmlEscape.UnescapeEscapeEach | components/RiskAssessment.tsx:150-156 | unescaping undoes the character-wise escape |
| TextLines.LeadingSpace | components/RiskAssessment.tsx:159 | the count is the length of the maximal white-space prefix |
| TextLines.TrailingSpace | components/RiskAssessment.tsx:159 | the count is the length of the maximal white-space suffix |
| TextLines.Trim | components/RiskAssessment.tsx:159 | `trim()` returns a contiguous slice of its input surrounded only by white space, is empty exactly when the input is all white space, and otherwise neither starts nor ends with white space |
| TextLines.Split | components/RiskAssessment.tsx:159 | `split('\n')` returns at least one piece; `SplitJoin` and `SplitNoLineFeed` together determine the pieces uniquely |
| TextLines.SplitJoin | components/RiskAssessment.tsx:159 | joining the pieces of `split('\n')` with line feeds gives back the text |
| TextLines.SplitNoLineFeed | components/RiskAssessment.tsx:159 | no piece of `split('\n')` holds a line feed |
| TextLines.DropEmptyTrimEachCount | components/RiskAssessment.tsx:159 | trimming then dropping empty strings keeps exactly one line per piece that is not all white space |
| TextLines.DropEmptyTrimEachNonBlank | components/RiskAssessment.tsx:159 | trimming every piece and dropping the empty results equals trimming exactly the pieces that are not all white space, in order |
| TextLines.LinesSpec | components/RiskAssessment.tsx:159 | the lines are the non-blank pieces of the split summary, in order, each trimmed; there is one per non-blank piece, and every line is non-empty, free of line feeds and has no white space at either end |
| TextLines.Lines | components/RiskAssessment.tsx:159 | `split('\n').map(trim).filter(Boolean)`; what it returns is stated by `LinesSpec` |
| StrongMarkup.CloseFrom | components/RiskAssessment.tsx:176 | the lazy `(.+?)\*\*` search finds the first `**` at or after the given position that closes a non-empty run free of line terminators, and reports none exactly when there is none |
| StrongMarkup.BoldStrongPair | components/RiskAssessment.tsx:176 | `**text**` with a non-empty text free of `*` and line terminators becomes `<strong>text</strong>`, and the replacement continues after it |
| StrongMarkup.Bold | components/RiskAssessment.tsx:176 | the global replacement; its contract is stated by `BoldStrongPair`, `CloseFrom`, `UnboldBold`, `BoldOnlyStrongTags`, `BoldWithoutStars` and `BoldPrefix` |
| StrongMarkup.UnboldBold | components/RiskAssessment.tsx:176 | on text without `<`, turning `<strong>` and `</strong>` back into `**` gives back the input, so the replacement loses nothing |
| StrongMarkup.BoldOnlyStrongTags | components/RiskAssessment.tsx:176 | on text without `<` or `>`, every `<` and `>` in the result belongs to a `<strong>` or `</strong>` tag |
| StrongMarkup.BoldWithoutStars | components/RiskAssessment.tsx:176 | text without `*` is unchanged by the replacement |
| StrongMarkup.BoldPrefix | components/RiskAssessment.tsx:176 | a prefix without `*` is left alone and the replacement continues after it |
| SummaryRender.DigitRun | components/RiskAssessment.tsx:177 | the count is the length of the maximal ASCII-digit prefix |
| SummaryRender.OrderedMarkerLength | components/RiskAssessment.tsx:177 | the greedy match of `^\d+\.\s+` covers the digits, the dot and all the white space after it |
| SummaryRender.CloseLists | components/RiskAssessment.tsx:164-173 | after `closeLists` no list is open, and it only appends fragments |
| SummaryRender.Step | components/RiskAssessment.tsx:175-200 | after handling a line at most one list is open, and it only appends fragments |
| SummaryRender.OrderedLineText | components/RiskAssessment.tsx:176-186 | stripping `^\d+\.\s+` from the escaped and bolded line equals escaping and bolding the line without its marker |
| SummaryRender.BulletLineText | components/RiskAssessment.tsx:176-196 | stripping `^- ` from the escaped and bolded line equals escaping and bolding the line without its marker |
| SummaryRender.LineBlockSpec | components/RiskAssessment.tsx:175-200 | a line is a numbered item exactly when it matches `^\d+\.\s+`, and a bullet item exactly when it does not but starts with `- `; otherwise it is a paragraph. The item text is the escaped, bolded line without its marker, its only markup is `<strong>`/`</strong>`, and removing bold and escaping gives back that line |
| SummaryRender.LineBlock | components/RiskAssessment.tsx:176-199 | one line's classification and item text; its contract is stated by `LineBlockSpec` |
| SummaryRender.StepRepresents | components/RiskAssessment.tsx:175-200 | one line's fragments extend a well-nested prefix by exactly that line's block, with the flags naming the open list |
| SummaryRender.RenderFromRepresents | components/RiskAssessment.tsx:175-201 | after any number of lines, the fragments so far stand for exactly those lines' blocks, in order |
| SummaryRender.CloseListsParses | components/RiskAssessment.tsx:202-203 | the final `closeLists` leaves a fragment sequence whose lists are all closed and that parses back to the blocks |
| SummaryRender.RenderPiecesParse | components/RiskAssessment.tsx:158-204 | the output is well nested: every `<li>` is inside a list, lists are never nested or interleaved, each opened list is closed, paragraphs stand outside lists; and it stands for exactly one block per non-blank line, in order |
| SummaryRender.GroupsSpec | components/RiskAssessment.tsx:175-199 | the reference grouping keeps every block, in order; no list is empty; a list is never followed directly by another list of its kind |
| SummaryRender.GroupsUnique | components/RiskAssessment.tsx:175-199 | every grouping of the same blocks with those two properties is the reference grouping, so the grouping into maximal lists is unique |
| SummaryRender.RenderPiecesGrouped | components/RiskAssessment.tsx:158-204 | the pushed fragments are exactly the reference rendering of the grouped lines: each maximal run of numbered lines is one `<ol>`, each maximal run of bullet lines one `<ul>`, each other line one paragraph; the grouping keeps every line in order |
| SummaryRender.RenderPieces | components/RiskAssessment.tsx:159-202 | the fragments pushed for a summary; its contract is stated by `RenderPiecesGrouped` (the exact fragments, one list per maximal run) and `RenderPiecesParse` (well nested) |
| SummaryRender.RenderAiSummaryEmpty | components/RiskAssessment.tsx:158-204 | the HTML is empty exactly when the summary has no non-blank line |
| SummaryRender.RenderAiSummary | components/RiskAssessment.tsx:158-204 | `html.join('')` over the fragments; its contract is stated by `RenderPiecesGrouped` and `RenderPiecesParse` (through `RenderPieces`) and by `RenderAiSummaryEmpty` |

## Left out

- The React component around `escapeHtml` and `renderAiSummary` is not modelled. This covers its state, the AI request and the PDF export call.
  - `lib/pdfExport.ts` is not part of this model; it is page layout in a foreign PDF library.
  - `lib/ai.ts`, `lib/openai.ts` and `app/api/ai/route.ts` are not part of this model; they are network calls.
  - `lib/storage.ts`, `components/AssessmentHistory.tsx` and `components/JSONImport.tsx` are not part of this model. They use local storage, JSON, dates and random ids.
  - The remaining components and pages are not part of this model; they are UI and translation tables.
- The `language` argument the page passes is ignored by `calculateRiskAssessment`, so it has no counterpart here.
- Every field of `DsfaData` except the eight flags of `Assessment.SameTriggerFlags` is carried but read by nothing. `Assessment.OnlyTriggerFlagsMatter` proves that two profiles agreeing on those eight flags get identical results.
- Descriptions, mitigations, titles and recommendation descriptions are stand-in keys (`"risk-1.description"`, …), not the German texts. Ids, categories, levels and legal bases are the source's values.
- The two issue texts of the compliance check are the enum values `SensitiveDataNeedsEncryption` and `LargeScaleNeedsMinimization`, not their German sentences.
- Characters are Unicode scalar values, not UTF-16 code units. A summary holding characters outside the Basic Multilingual Plane is therefore not measured the way JavaScript measures it; nothing in the rendering depends on lengths.
- The decision log and the risk summary read by components/DecisionLog.tsx and components/RiskSummary.tsx have no producing code in `calculateRiskAssessment` and are not modelled.
