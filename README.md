# PR dashboard report logic, modelled in Dafny

This project models the report logic of a pull-request dashboard. The
dashboard is a Next.js page. Its users pick a team member, a date range and
some repositories, fetch that member's pull requests, and turn them into
three charts and an evaluation PDF. The model covers four parts:

- **Records** (`records.dfy`): the PR and member records, plus an `Option` type.
- **Numerals** (`numerals.dfy`): decimal rendering of naturals, which the chart labels use. It carries a proof that parsing the rendering back gives the number.
- **Metrics** (`metrics.dfy`): the summary the page derives from a PR list. That is the totals, the per-state counts, the average days to merge, and the summary card.
- **Scoring** (`scoring.dfy`): the threshold rules of the PDF generator. That is the sub-scores, the overall score in integer tenths, the score label, the improvement suggestions and the assessment tiers.
- **Charts** (`charts.dfy`): the datasets of the pie, bar and line charts.
- **Layout** (`layout.dfy`): `generatePDFReport` as a layout state machine. The class `PdfLayout` holds a page count, a vertical cursor and the items drawn so far. Its methods follow the generator step by step. They are proved against the spec functions `Break`, `Place`, `Flow` and `Stack`, which say where a run of blocks lands.
- **Dashboard** (`dashboard.dfy`): the page's React state as the class `DashboardState`. It covers the repository toggle, the input guards, the query parameters, the all-or-nothing gathering of per-repository results, and the report input.

Arithmetic is exact:
- days to merge and averages are `real`;
- rates are compared by cross-multiplication (`merged * 100 > 80 * total`);
- the overall score is kept in integer tenths.

## Model

| member | source | states |
|---|---|---|
| Numerals.NatToString | components/report-charts.tsx:79 | `(i + 1).toString()` is a non-empty string of decimal digits |
| Numerals.ValueOfNatToString | components/report-charts.tsx:79 | reading a rendered natural back gives the same number |
| Numerals.NatToStringInjective | components/report-charts.tsx:79 | different numbers render as different strings |
| Metrics.CountState | app/page.tsx:165-167 | a state count is at most the list length, and it is 0 exactly when no PR has that state |
| Metrics.Total | app/page.tsx:163-164 | the comment or commit total is non-negative when every counter is |
| Metrics.MergedWithDays | app/page.tsx:182 | the filter keeps exactly the MERGED PRs that have `days_to_merge` |
| Metrics.DaysOf | app/page.tsx:184 | each element is that PR's `days_to_merge`, or 0 when it is absent |
| Metrics.AvgDaysToMerge | app/page.tsx:181-185 | the average is 0 when no MERGED PR has days; otherwise it is the sum of those days over their count |
| Metrics.Summarize | app/page.tsx:159-169 | totalPRs is the list length; merged+open+declined ≤ totalPRs, with equality iff every state is OPEN, MERGED or DECLINED |
| Metrics.StatesPartition | app/page.tsx:165-167 | the three state counts sum to at most the PR count, and to exactly that count iff every state is one of the three options |
| Metrics.CountStateAdditive | app/page.tsx:116 | state counts of concatenated per-repository lists add up |
| Metrics.TotalAdditive | app/page.tsx:116 | comment and commit totals of concatenated lists add up |
| Metrics.MergedWithDaysAdditive | app/page.tsx:116 | the merged-with-days filter commutes with concatenation |
| Metrics.SumBounds | app/page.tsx:184 | a sum of n values in [lo, hi] lies in [n·lo, n·hi] |
| Metrics.MeanWithinBounds | app/page.tsx:184 | a mean lies within any bounds of the values averaged |
| Metrics.AvgWithinBounds | app/page.tsx:181-185 | the average days to merge lies between any lower and upper bound of the merged PRs' days, so between their minimum and maximum |
| Metrics.DisplaySummary | app/page.tsx:190-198 | the card shows a dash exactly when no MERGED PR has days; otherwise it shows the same average, and the same totals, as the report summary |
| Scoring.RateAboveExact | lib/pdf-generator.ts:268-272 | comparing `merged*100` with `pct*total` decides exactly whether the merge rate exceeds pct, and likewise whether it is below 70 |
| Scoring.MergeRatePercent | lib/pdf-generator.ts:165-166 | the merge rate times the PR count is 100 times the merged count; it is never negative, and at most 100 when merged ≤ total |
| Scoring.CommentsPerPRRatio | lib/pdf-generator.ts:298 | comments per PR times the PR count is the comment total; the ratio is non-negative iff the total is |
| Scoring.CommentsPerPRExact | lib/pdf-generator.ts:298 | `comments < k*total` iff comments per PR < k |
| Scoring.SpeedScore | lib/pdf-generator.ts:269-270 | the speed sub-score is one of 10, 8, 6, 4 |
| Scoring.SpeedScoreAntitone | lib/pdf-generator.ts:269-270 | a smaller average never gets a lower speed score |
| Scoring.QualityScore | lib/pdf-generator.ts:272 | the quality sub-score is one of 10, 8, 6 |
| Scoring.QualityScoreMonotone | lib/pdf-generator.ts:272 | a higher merge rate never gets a lower quality score |
| Scoring.ActivityScore | lib/pdf-generator.ts:273 | the activity sub-score is one of 10, 8, 6 |
| Scoring.RoundedTenths | lib/pdf-generator.ts:275 | the result is the integer nearest to 10·sum/3, strictly within half a tenth, so the rounding mode never matters |
| Scoring.OverallScore | lib/pdf-generator.ts:267-276 | the score in tenths lies in [53, 100] and is the rounded mean of the three sub-scores |
| Scoring.OverallScoreExample | lib/pdf-generator.ts:267-284 | 10 PRs, 9 merged, 1.5 days on average score 8.7, a "Strong Contributor!" |
| Scoring.LabelRank | lib/pdf-generator.ts:278-284 | the number of the thresholds 6, 7, 8 and 9 that the score reaches indexes a label |
| Scoring.ScoreLabel | lib/pdf-generator.ts:278-284 | the label is the one for the number of thresholds (9/8/7/6) reached, tried from the highest down |
| Scoring.ScoreLabelMonotone | lib/pdf-generator.ts:278-284 | a higher score never gets a lower label |
| Scoring.AdviceRanks | lib/pdf-generator.ts:291-308 | the four advice messages and the two praise messages are pairwise distinct |
| Scoring.Suggestions | lib/pdf-generator.ts:286-312 | there are 1 to 4 messages; the result is the two praise messages iff no rule fires, and exactly the fired advice when some rule fires |
| Scoring.Fired | lib/pdf-generator.ts:289-304 | at most four advice messages; none iff no rule fires |
| Scoring.SuggestionsFollowRules | lib/pdf-generator.ts:289-309 | each advice appears iff its rule fires (merge rate < 70, average > 7 days, < 2 comments per PR, > 5 open); the praise never appears with advice |
| Scoring.SuggestionsInRuleOrder | lib/pdf-generator.ts:289-304 | the advice comes in rule order, each message at most once |
| Scoring.SpeedTier | lib/pdf-generator.ts:183-190 | the speed tier (Very Fast/Fast/Moderate/Slow) uses the buckets of the speed sub-score |
| Scoring.QualityTier | lib/pdf-generator.ts:168 | the quality tier (Excellent/Good/Needs Improvement) uses the thresholds of the quality sub-score |
| Scoring.EngagementTier | lib/pdf-generator.ts:169 | "Low engagement" iff under 2 comments per PR, "Good collaboration" iff from 2 to under 5, "High engagement" iff at least 5 |
| Scoring.EngagementTierOnRatio | lib/pdf-generator.ts:169 | the three engagement tiers are exactly the buckets < 2, [2, 5) and ≥ 5 of the real comments-per-PR ratio |
| Scoring.LowEngagementAdvised | lib/pdf-generator.ts:169 | engagement is called low exactly when the engagement advice is given |
| Scoring.VelocityWord | lib/pdf-generator.ts:94 | "efficient" iff the average days to merge is under 3, "moderate" iff it is 3 or more |
| Charts.PieData | components/report-charts.tsx:44-54 | the MERGED, OPEN and DECLINED counts of the summary, in that order, summing to at most the PR count |
| Charts.BarLabel | components/report-charts.tsx:64 | the first min(20, length) characters followed by "...", even for a short title |
| Charts.BarLabels | components/report-charts.tsx:63-66 | one label per PR for the first min(10, n) PRs, in order |
| Charts.BarValues | components/report-charts.tsx:67-68 | the commits of the same first min(10, n) PRs, in order |
| Charts.BarChartAligned | components/report-charts.tsx:63-68 | labels and values have equal length, at most the PR count |
| Charts.LineLabels | components/report-charts.tsx:79 | "PR 1" .. "PR n" for the first n = min(10, m) merged PRs with days |
| Charts.LineValues | components/report-charts.tsx:83 | one value per labelled point: min(10, m) values for the m merged PRs with days |
| Charts.LineValuesAreMergeTimes | components/report-charts.tsx:77-83 | labels and values have equal length; each value is the real days to merge of a MERGED PR of the list |
| Charts.LineLabelsDistinct | components/report-charts.tsx:79 | the line labels are pairwise different |
| Layout.Break | lib/pdf-generator.ts:53-58 | no change iff the block fits above the bottom margin; otherwise exactly one more page with y = 20; afterwards a block of at most 257 mm fits |
| Layout.Place | lib/pdf-generator.ts:255-258 | a line draws one item per cell |
| Layout.PlaceItems | lib/pdf-generator.ts:255-258 | every cell of a line lands on the cursor's page and height at its own x |
| Layout.Stack | lib/pdf-generator.ts:120-123 | a run of unchecked single-cell lines draws one item per cell |
| Layout.StackItems | lib/pdf-generator.ts:120-123 | unchecked lines stay on one page, cell i sits 7·i mm (the advance) below the start |
| Layout.FlowDrawsAllCells | lib/pdf-generator.ts:241-260 | a page-break-checked run draws exactly the cells of its lines, in order |
| Layout.FlowPages | lib/pdf-generator.ts:53-58 | a run only moves forward, at most one page per line, and every item lies between the start and end page |
| Layout.FlowFits | lib/pdf-generator.ts:53-58 | every checked block starts where its required height fits above the bottom margin |
| Layout.MetricCells | lib/pdf-generator.ts:110-121 | seven bullets at x = 25, one per metric in source order |
| Layout.Bullets | lib/pdf-generator.ts:120-121 | one bullet at x = 25 per text, the text prefixed with "• ", in order |
| Layout.MetricTextFigures | lib/pdf-generator.ts:110-118 | each of the seven metrics shows its own figure of the summary: totals, merged count and merge rate, open, declined, commits, comments, average days |
| Layout.SummaryTextFigures | lib/pdf-generator.ts:91-94 | the summary paragraph reports the PR total, the repository count, the merged count, the merge rate and the average days, and ends with the velocity word of that average |
| Layout.QualityTextTiers | lib/pdf-generator.ts:168-169 | the quality paragraph shows the merge rate with the tier of the quality sub-score, and comments per PR with "Low" iff the ratio is under 2 and "High" iff it is 5 or more |
| Layout.SpeedTextTier | lib/pdf-generator.ts:182-192 | the speed line shows the average with the tier of the speed sub-score |
| Layout.ScoreTextRange | lib/pdf-generator.ts:200 | the score line shows a score s with 5.3 ≤ s ≤ 10 and 10·s the overall score in tenths, followed by the label of those tenths |
| Layout.ImageLines | lib/pdf-generator.ts:136-139 | one 150 × 100 image per chart at x = (210 − 150)/2 |
| Layout.SuggestionLines | lib/pdf-generator.ts:213-215 | one bullet at x = 25 per suggestion |
| Layout.ColumnX | lib/pdf-generator.ts:231-238 | the columns sit at x = 20, 100, 125, 145, 170 |
| Layout.TruncateTitle | lib/pdf-generator.ts:248 | a title keeps its text when at most 30 characters, else its first 30 plus "...", so at most 33 |
| Layout.RowData | lib/pdf-generator.ts:247-253 | the row holds the truncated title, state, commits and comments; the days cell is "—" iff `days_to_merge` is absent |
| Layout.LineCells | lib/pdf-generator.ts:255-258 | cell j of a table line is at column j's x |
| Layout.HeaderData | lib/pdf-generator.ts:231 | the header line holds the five column names, in order |
| Layout.TableLines | lib/pdf-generator.ts:243 | the table has min(20, n) rows, row i being the cells of PR i |
| Layout.RowLines | lib/pdf-generator.ts:243-258 | one line per PR, line i being the cells of PR i |
| Layout.TableCell | lib/pdf-generator.ts:243-258 | cell k of the table body is column k mod 5 of PR k div 5 |
| Layout.TableBody | lib/pdf-generator.ts:241-260 | the table draws min(20, n) rows of five cells at fixed x, taken from the first PRs in order, each row fitting 8 mm above the bottom margin |
| Layout.ChartImagesOnPage | lib/pdf-generator.ts:130-141 | each chart image, in order, is centred at x = 30 and ends on its page |
| Layout.ChartImageMayEnterMargin | lib/pdf-generator.ts:133-140 | a check for 80 mm before a 100 mm image lets an image reach into the bottom margin |
| Layout.DatePart | lib/pdf-generator.ts:263 | the file date is the longest prefix of the ISO timestamp before its first "T" |
| Layout.FileNameParts | lib/pdf-generator.ts:263 | the file name is the employee name, "_Evaluation_Report_", the date part of the timestamp (which holds no "T") and ".pdf" |
| Layout.JoinLength | lib/pdf-generator.ts:69 | the joined repositories are as long as the names plus one separator between neighbours, and end with the last name |
| Layout.CoverItems | lib/pdf-generator.ts:60-77 | the cover is six lines |
| Layout.EvaluationItems | lib/pdf-generator.ts:148-208 | the evaluation page has seven fixed items |
| Layout.SummaryOpensPage | lib/pdf-generator.ts:79-81 | the executive summary starts with its heading at the top of the next page and ends on that page or a later one |
| Layout.EvaluationOpensPage | lib/pdf-generator.ts:149-150 | the evaluation starts with its heading at the top of the next page and ends on that page or a later one |
| Layout.TableOpensPage | lib/pdf-generator.ts:219-225 | the detail table starts with its heading at the top of the next page and ends on that page or a later one |
| Layout.ThreeOpeners | lib/pdf-generator.ts:79-81 | after a one-page cover, three sections that each open the page after the previous section's cursor each open a page in the whole run |
| Layout.DocumentOpensPages | lib/pdf-generator.ts:46-265 | the document has at least four pages; the summary, the evaluation and the table each start with their heading at the top of a new page, the summary on page 2 |
| Layout.PdfLayout.constructor | lib/pdf-generator.ts:47-50 | one page, cursor at 20, nothing drawn |
| Layout.PdfLayout.AddPage | lib/pdf-generator.ts:55 | one more page, nothing else changes |
| Layout.PdfLayout.Draw | lib/pdf-generator.ts:86 | one item appended on the current page |
| Layout.PdfLayout.CheckPageBreak | lib/pdf-generator.ts:53-58 | the cursor moves exactly as `Break` says and nothing is drawn |
| Layout.PdfLayout.CoverPage | lib/pdf-generator.ts:60-77 | the six cover lines appended on the current page, the cursor untouched |
| Layout.PdfLayout.ExecutiveSummary | lib/pdf-generator.ts:79-98 | a new page with the heading at y = 20 and the paragraph at 35; the cursor ends at 45 + 5·lines |
| Layout.PdfLayout.KeyMetrics | lib/pdf-generator.ts:100-123 | after a 60 mm check, the heading, then the seven metrics 7 mm apart |
| Layout.PdfLayout.DrawMetric | lib/pdf-generator.ts:120-123 | one bullet at the cursor, 7 mm down, no page-break check |
| Layout.PdfLayout.MetricList | lib/pdf-generator.ts:120-123 | the metrics drawn as `Stack` places them, on one page |
| Layout.PdfLayout.DrawImage | lib/pdf-generator.ts:133-140 | an 80 mm check, then the image, then 115 mm down |
| Layout.PdfLayout.ChartImages | lib/pdf-generator.ts:125-146 | the images drawn as `Flow` places them with need 80 and advance 115 |
| Layout.PdfLayout.EmployeeEvaluation | lib/pdf-generator.ts:148-208 | a new page with the seven fixed evaluation items appended; the cursor ends at 115 + 5·lines |
| Layout.PdfLayout.DrawSuggestion | lib/pdf-generator.ts:213-217 | a 10 mm check, then a bullet, then 7 mm down |
| Layout.PdfLayout.SuggestionList | lib/pdf-generator.ts:212-217 | the suggestions drawn as `Flow` places them with need 10 and advance 7 |
| Layout.PdfLayout.DrawRow | lib/pdf-generator.ts:255-258 | the cells of one line at the column x positions, cursor unchanged |
| Layout.PdfLayout.SummaryPages | lib/pdf-generator.ts:79-146 | exactly the items of the executive-summary section are appended, and the cursor ends where that section ends |
| Layout.PdfLayout.EvaluationPages | lib/pdf-generator.ts:148-217 | exactly the items of the evaluation section are appended, and the cursor ends where that section ends |
| Layout.PdfLayout.TableHeader | lib/pdf-generator.ts:219-239 | a new page, the heading at 20, the header line at 35, the cursor at 43 |
| Layout.PdfLayout.DrawTableRow | lib/pdf-generator.ts:243-259 | an 8 mm check, the five cells of the PR, then 6 mm down |
| Layout.PdfLayout.TableRows | lib/pdf-generator.ts:241-260 | the rows drawn as `Flow` places them with need 8 and advance 6 |
| Layout.PdfLayout.DetailTable | lib/pdf-generator.ts:219-260 | exactly the items of the table section are appended, and the cursor ends where that section ends |
| Layout.GeneratePdfReport | lib/pdf-generator.ts:46-265 | a fresh, valid document whose items and cursor are exactly those of `Document` for the data; the file name is `FileName` of the employee and the timestamp |
| Dashboard.Without | app/page.tsx:90 | the repository is gone, every other one keeps its membership |
| Dashboard.Toggle | app/page.tsx:89-91 | membership of the toggled repo flips, others keep theirs, and an absent repo is appended at the end |
| Dashboard.WithoutAbsent | app/page.tsx:90 | removing a repository that is not there changes nothing |
| Dashboard.WithoutAppend | app/page.tsx:90 | removal distributes over concatenation |
| Dashboard.ToggleTwice | app/page.tsx:89-91 | toggling an absent repository twice restores the selection |
| Dashboard.ToggleKeepsOthersInOrder | app/page.tsx:89-91 | the other repositories keep their relative order |
| Dashboard.WithoutDistinct | app/page.tsx:90 | removal keeps a duplicate-free selection duplicate-free |
| Dashboard.ToggleDistinct | app/page.tsx:89-91 | toggling keeps a duplicate-free selection duplicate-free |
| Dashboard.NamesDistinct | app/page.tsx:104-111 | the six parameter names are pairwise different |
| Dashboard.Lookup | app/page.tsx:104-111 | a parameter is absent iff no entry has its key |
| Dashboard.LookupAppend | app/page.tsx:110-111 | looking up in appended parameters finds the first part's entry first |
| Dashboard.Optional | app/page.tsx:110-111 | an optional parameter is sent iff its value is non-empty |
| Dashboard.FetchQuery | app/page.tsx:104-111 | the per-repository query has 4 to 6 parameters |
| Dashboard.FetchQueryParams | app/page.tsx:104-111 | author, from, to and repo are always sent; state and target_branch only when non-empty |
| Dashboard.ReportQuery | app/page.tsx:133-141 | the report query has 2 to 6 parameters |
| Dashboard.ReportQueryParams | app/page.tsx:133-141 | author and the first selected repository are always sent; from, to, state and target_branch only when non-empty |
| Dashboard.FetchAllFails | app/page.tsx:102-121 | gathering fails iff some repository's request fails |
| Dashboard.FetchAllAppend | app/page.tsx:102-117 | gathering two selections succeeds iff both do, and concatenates their results in order |
| Dashboard.FetchAllOne | app/page.tsx:104-113 | one repository is gathered by one request with that repository's query |
| Dashboard.GatherPRs | app/page.tsx:102-117 | the loop's result is the all-or-nothing concatenation of the per-repository lists in selection order |
| Dashboard.FindMember | app/page.tsx:155 | the first member with that uuid, none iff there is none |
| Dashboard.EmployeeName | app/page.tsx:157 | the member's display name when found and non-empty, else "Unknown"; never empty |
| Dashboard.EvaluationReportData | app/page.tsx:147-170 | no report data iff there are no PRs; otherwise the employee name, "from to to", the repositories, the PRs and their summary with totalPRs > 0 |
| Dashboard.Report | app/page.tsx:147-172 | the report data for the page state, and no document iff there is none; otherwise a fresh, valid document of at least 4 pages holding exactly the generator's items for that data and the three charts, named after the employee |
| Dashboard.DashboardState.constructor | app/page.tsx:56-66 | every field empty or false, the members as given |
| Dashboard.DashboardState.ToggleRepo | app/page.tsx:89-91 | the selection toggles, every other field is unchanged, the selection stays duplicate-free |
| Dashboard.DashboardState.FetchPRs | app/page.tsx:93-125 | with a field missing only the error is set; otherwise the PRs become the gathered list, or stay unchanged with the fetch error when a request fails; loading ends false |
| Dashboard.DashboardState.DownloadReport | app/page.tsx:127-145 | no query and an error iff the member or the selection is empty; otherwise the report query, with nothing else changed |
| Dashboard.DashboardState.GenerateEvaluationReport | app/page.tsx:147-179 | no document and an error iff there are no PRs; otherwise the report data of the current form, selection and PRs, and a valid document of at least 4 pages holding exactly the generator's items for that data, named after the employee; the form, selection, members and PRs are unchanged |

## Left out

- Network I/O is not modelled: `lib/api.js`, `fetch`, `URLSearchParams` encoding and `window.open`. A backend request is a function from parameters to an optional PR list. The member-list fetch on page load is not part of this model; members are a constructor argument.
- JSX, Tailwind classes, the popover open flags, `showCharts` and the chart.js options are not modelled, because they are presentation only.
- jsPDF fonts, colours, alignment, `addImage` and `save`, and `canvas.toDataURL` are not modelled. Only the positions, advances and contents of drawn items are kept.
- `splitTextToSize` depends on font metrics. Its line count is an input of the layout: a function `wrap` for the executive summary and the quality paragraph.
- `toFixed`, `toString`, `toLocaleDateString` and `new Date()` are not modelled. Numbers in drawn text stay abstract parts. The generation date and the ISO timestamp are parameters.
- IEEE-754 doubles are not modelled. All rates, averages and the score are exact, so the model does not capture rounding at exact rate boundaries.
- Scoring functions require `totalPRs > 0`, because in the source zero PRs gives NaN/Infinity rather than a result. The page never reaches that case (app/page.tsx:148).
- The try/catch around the charts (lib/pdf-generator.ts:143-145) is not modelled, and neither is the "❌ Failed to generate report" path (app/page.tsx:173-175). Both are exception plumbing for foreign code.
- The `|| 0` defaults on comments and commits are not modelled: the counters are always-present integers, so the defaults change no value.
- The PDF's chart canvases are taken to be the three charts of the report component, in the order pie, bar, line.
- A4 size is taken as 210 × 297 mm. jsPDF's dimensions differ in the fourth decimal, and that does not change any comparison of the integer cursor.
- Layout.DocumentOpensPages: "opens a new page" is stated as "the heading is at the top margin on a later page than the previous item". The model does not state that every earlier item lies on an earlier page.
- Dashboard.DashboardState.GenerateEvaluationReport: `generatingReport` is true while the PDF is drawn and reset by `finally` (app/page.tsx:153, 177). The model keeps only the reset value, because nothing reads the flag while the layout runs.
- Dashboard.ReportQueryParams: states the value found for each key. It does not state that no second `repo` entry exists.
- The comment total is the plain sum of the PRs' `comments` fields (app/page.tsx:163); it has no per-member adjustment.
- The suggestion messages are the code's strings exactly, none with a trailing period (lib/pdf-generator.ts:291-308).
- Layout.TruncateTitle: counts characters as Unicode scalar values, while `substring` and `length` count UTF-16 code units. A title with a character outside the Basic Multilingual Plane, such as "🐛" followed by 29 letters, is 31 code units: the source keeps its first 30 units (the emoji and 28 letters) and appends "...", whereas the model keeps it whole. A lone surrogate cannot be represented at all.
- Charts.BarLabel: counts Unicode scalar values for the same reason. For "🐛" followed by 19 letters, the source keeps 20 code units, dropping the last letter, whereas the model keeps all 20 characters.
- Metrics.MergedWithDays: `days_to_merge` is an optional number, as the field is declared (app/page.tsx:34). A JSON `null` is not modelled. The source's `!== undefined` filter keeps such a PR, and `|| 0` then counts it as 0 days in the average (app/page.tsx:182-184, 194-197) and in the line chart (components/report-charts.tsx:77-83); the model treats it like a missing value.
- Charts.LineValues: the `|| 0` default is modelled, but it only ever applies to a present 0, since `null` is not modelled (see above).
- Layout.Flow: a spec function with no contract of its own. Its properties are stated by `FlowDrawsAllCells`, `FlowPages` and `FlowFits`.
- The page-break checks follow the code. The key-metrics section is checked once, for 60 mm, before its heading; the metric lines themselves are not checked.
