# BTTDC dashboard logic in Dafny

BTTDC is a municipal dashboard for compensation, support and resettlement projects
(bồi thường, hỗ trợ, tái định cư). Under its React pages sits a small layer of logic. This
project models that layer in Dafny and proves what it does:

- **The persisted store** (`StorageService`): the browser storage is a map from keys to
  stored lists, and the JSON encoding is the identity.
  - `Store.Init` seeds each key only when it is absent or empty.
  - The readers return `[]` for a missing key.
  - `getProjectById` returns the first match.
  - `getDashboardStats` keeps its integer fields: counts, the compensation sum, and the
    delayed count by string comparison with today's date.
- **The location chart of the overview page** (`Dashboard`).
  - Two nested loops split every project's `locations` on commas, trim each piece and count
    the non-empty ones into a dictionary.
  - The entries are then sorted by count, largest first, and cut to seven.
  - The loops are methods proved against recursive reference functions: the segment list,
    the key order and the tally.
  - The chart's properties are lemmas about those functions.
- **List filters and tallies**:
  - the status filter and status cards of the issue page (`IssueManagement`);
  - the case-insensitive search of the project list (`ProjectList`);
  - the per-project issue list of the detail page (`ProjectDetail`);
  - the issue-type chart with its `|| 2` fallback (`CityDashboard`).
- **Threshold classifiers**:
  - status colouring by substring precedence;
  - step bars;
  - ward bars;
  - the inventory-progress tiers, whose float tests are proved equal to whole-number tests;
  - the disbursement badge and icon.
- **The JavaScript semantics the pages depend on**:
  - `<` on strings, as lexicographic order (`Text.LexLess`), and that on ISO 8601 calendar
    dates it is chronological order (`IsoDates`);
  - `includes`, `trim` over the ECMAScript white-space set, and `split`;
  - `parseInt` as section 19.2.5 of ECMA-262 defines it;
  - the quotients NaN and Infinity, and `|| 0` (`JsNumbers`).

The helper modules are `Types` (the records of `src/types.ts`), `Seqs`, `Text`, `IsoDates`
and `JsNumbers`. Each page has its own module.

## Model

| member | source | states |
|---|---|---|
| Types.StatusNameInjective | src/types.ts:63 | the three statuses have distinct stored names, none of which is the filter value "All" |
| IsoDates.LexLessIsChronological | src/services/storageService.ts:190-191 | on YYYY-MM-DD dates, JavaScript's string `<` holds exactly when the first date is an earlier calendar day |
| IsoDates.NumberInjective | src/services/storageService.ts:191 | fixed-width digit fields with equal values are equal strings |
| Text.LexLess | src/services/storageService.ts:191 | no contract; properties in `Text.LexLessTrichotomy`, `Text.LexLessTransitive` and `IsoDates.LexLessIsChronological` |
| Text.LexLessTrichotomy | src/services/storageService.ts:191 | string `<` orders any two different strings one way and never both ways |
| Text.LexLessTransitive | src/services/storageService.ts:191 | string `<` is transitive |
| Text.Trim | src/pages/Dashboard.tsx:98 | no contract; properties in `Text.TrimFacts`, `Text.TrimEmpty` and `Text.TrimIdempotent` |
| Text.TrimEmpty | src/pages/Dashboard.tsx:98-99 | a piece trims to "" exactly when it consists of white space only |
| Text.TrimIdempotent | src/pages/Dashboard.tsx:98 | trimming a trimmed segment changes nothing |
| Text.TrimFacts | src/pages/Dashboard.tsx:98 | a trimmed piece is the middle part of the piece, with only white space removed before and after it, and has no white space at either end |
| Text.Split | src/pages/Dashboard.tsx:97 | `split` always gives at least one piece; further properties in `Text.SplitPiecesLackSeparator` and `Text.JoinSplit` |
| Text.SplitPiecesLackSeparator | src/pages/Dashboard.tsx:97 | no piece of `split(',')` contains a comma |
| Text.JoinSplit | src/pages/Dashboard.tsx:97 | joining the pieces of a split with the separator gives back the string |
| Text.Contains | src/pages/ProjectList.tsx:31-32 | no contract; properties in `Text.ContainsAt`, `Text.ContainsWindow`, `Text.ContainsPrefix` and `ProjectList.FilteredProjectsSelects` |
| Text.ContainsAt | src/pages/ProjectList.tsx:31-32 | a string whose window at some position equals `t` contains `t` |
| Text.ContainsWindow | src/pages/ProjectList.tsx:31-32 | a string containing `t` has a position whose window equals `t`, the converse of `Text.ContainsAt` |
| Text.ContainsPrefix | src/pages/ProjectList.tsx:31-32 | a string containing `t + u` contains `t` |
| Text.LowerConcat | src/pages/ProjectList.tsx:31-32 | the per-character case mapping `Text.Lower` distributes over concatenation: lower-casing `a + b` lower-cases `a` and `b` separately |
| StorageService.InitialProjects | src/services/storageService.ts:6-82 | no contract; the seed projects, read back in order by `StorageService.InitThenRead` |
| StorageService.InitialIssues | src/services/storageService.ts:84-150 | no contract; the seed issues, read back in order by `StorageService.InitThenRead` |
| StorageService.Seeded | src/services/storageService.ts:153-160 | after `init` each of the two keys holds its old value if that was set, otherwise its seed list; other keys are untouched |
| StorageService.Store.Init | src/services/storageService.ts:153-160 | the method leaves the store equal to `Seeded` of the old store and never changes a key that held a value |
| StorageService.SeededIdempotent | src/services/storageService.ts:153-160 | running `init` twice leaves the store as running it once |
| StorageService.SeededKeepsSetKeys | src/services/storageService.ts:154-159 | a key holding a non-empty value is never overwritten |
| StorageService.InitThenRead | src/services/storageService.ts:153-175 | on a store with neither key set, `init` and then the readers give exactly the five seed projects and the five seed issues, in order |
| StorageService.GetProjects | src/services/storageService.ts:162-165 | an absent or empty key reads as the empty list |
| StorageService.GetIssues | src/services/storageService.ts:172-175 | an absent or empty key reads as the empty list |
| StorageService.FindById | src/services/storageService.ts:169 | `find` gives nothing exactly when no project has the id, and otherwise a listed project with that id |
| StorageService.FindByIdFirst | src/services/storageService.ts:169 | the project found is the first one with the id |
| StorageService.GetProjectById | src/services/storageService.ts:167-170 | lookup by id in the stored list: nothing exactly when no stored project has the id |
| StorageService.GetDashboardStats | src/services/storageService.ts:177-219 | no contract; properties in `StorageService.StatsBounds`, `StorageService.TotalCompensationConcat` and `StorageService.DelayedIsChronological` |
| StorageService.StatsBounds | src/services/storageService.ts:181-194 | `totalProjects` is the list length; the priority and delayed counts are at most that; the active issues are at most the issue count and equal the pending plus the processing ones |
| StorageService.TotalCompensationConcat | src/services/storageService.ts:187 | the compensation sum of two lists together is the sum of their sums |
| StorageService.DelayedIsChronological | src/services/storageService.ts:190-191 | with ISO dates, `delayedProjects` counts exactly the projects whose hand-over deadline is an earlier day than today |
| Dashboard.Pieces | src/pages/Dashboard.tsx:96-97 | no contract; properties in `Dashboard.ProjectStep` and `Dashboard.NoLocationsNoSegments` |
| Dashboard.Kept | src/pages/Dashboard.tsx:98-99 | no contract; properties in `Dashboard.KeptStep` and `Dashboard.SegmentsClean` |
| Dashboard.Segments | src/pages/Dashboard.tsx:95-104 | no contract; properties in `Dashboard.ProjectStep` and `Dashboard.SegmentsClean` |
| Dashboard.Tally | src/pages/Dashboard.tsx:100 | no contract; properties in `Dashboard.TallyStep`, `Dashboard.TallyCounts` and `Dashboard.TallyTotal` |
| Dashboard.TallyLocations | src/pages/Dashboard.tsx:93-104 | the outer loop leaves the dictionary keys, in insertion order, equal to the distinct segments in order of first appearance, and the counts equal the tally of all the projects' kept segments |
| Dashboard.CountPieces | src/pages/Dashboard.tsx:97-102 | the inner loop extends the key order and tally built so far by one project's trimmed, non-empty pieces |
| Dashboard.ProjectStep | src/pages/Dashboard.tsx:95-97 | a project with truthy `locations` adds its kept comma pieces after those of earlier projects; any other project adds nothing |
| Dashboard.NoLocationsNoSegments | src/pages/Dashboard.tsx:96 | a project whose `locations` is missing or empty contributes no segment |
| Dashboard.KeptStep | src/pages/Dashboard.tsx:98-99 | each piece contributes its trimmed form, unless that is empty |
| Dashboard.SegmentsClean | src/pages/Dashboard.tsx:97-99 | every counted segment is non-empty and already trimmed |
| Dashboard.TallyStep | src/pages/Dashboard.tsx:100 | counting one segment raises a known name's count by one, or adds a new name with count 1 at the end of the key order |
| Dashboard.TallyCounts | src/pages/Dashboard.tsx:100 | the dictionary holds exactly the segment names, and each name's count is its number of occurrences among the segments |
| Dashboard.OccurrencesConcat | src/pages/Dashboard.tsx:100 | occurrences add up over concatenated segment lists, so a name repeated in one project counts each time |
| Dashboard.FirstSeenFacts | src/pages/Dashboard.tsx:106 | the key order lists each segment name exactly once |
| Dashboard.TallyTotal | src/pages/Dashboard.tsx:94-107 | the counts of all entries add up to the number of non-empty trimmed segments |
| Dashboard.Entries | src/pages/Dashboard.tsx:106-107 | `Object.entries(...).map` gives one entry per key, in key order, carrying that key's count |
| Dashboard.SortByCount | src/pages/Dashboard.tsx:108 | no contract; properties in `Dashboard.SortByCountFacts` and `Dashboard.SortKeepsDistinct` |
| Dashboard.SortByCountFacts | src/pages/Dashboard.tsx:108 | the sort is a permutation of the entries and leaves them ordered by count, largest first |
| Dashboard.InsertByCountOrdered | src/pages/Dashboard.tsx:108 | inserting an entry into a list ordered largest first keeps it ordered |
| Dashboard.SortKeepsDistinct | src/pages/Dashboard.tsx:108 | sorting entries with distinct names keeps them distinct |
| Dashboard.TopLocations | src/pages/Dashboard.tsx:108-109 | the slice has `min(n, 7)` entries, ordered by count, largest first |
| Dashboard.TopLocationsAreLargest | src/pages/Dashboard.tsx:106-109 | an entry cut off by the slice counts no more than any entry kept |
| Dashboard.LocationChart | src/pages/Dashboard.tsx:92-109 | no contract; properties in `Dashboard.ChartShape`, `Dashboard.ChartCounts` and `Dashboard.ChartTop` |
| Dashboard.ChartShape | src/pages/Dashboard.tsx:106-109 | the chart shows `min(number of wards, 7)` bars with distinct names, ordered by count, largest first |
| Dashboard.ChartCounts | src/pages/Dashboard.tsx:100-109 | every bar's count is its ward's number of segments, and so at least 1 |
| Dashboard.ChartTop | src/pages/Dashboard.tsx:106-109 | a counted ward left off the chart has no more segments than any ward on it |
| IssueManagement.FilteredIssues | src/pages/IssueManagement.tsx:29 | no contract; properties in `IssueManagement.AllShowsEverything`, `IssueManagement.StatusFilterShows`, `IssueManagement.UnknownFilterShowsNothing` and `IssueManagement.FilteredIsSelection` |
| IssueManagement.StatusCard | src/pages/IssueManagement.tsx:62-72 | no contract; properties in `IssueManagement.CardMatchesView` and `IssueManagement.ViewsPartition` |
| IssueManagement.AllShowsEverything | src/pages/IssueManagement.tsx:29 | the filter value 'All' shows the issue list unchanged |
| IssueManagement.StatusFilterShows | src/pages/IssueManagement.tsx:29 | a status name shows exactly the issues with that status, in stored order |
| IssueManagement.UnknownFilterShowsNothing | src/pages/IssueManagement.tsx:29 | a filter value that is neither 'All' nor a status name shows no row |
| IssueManagement.FilteredIsSelection | src/pages/IssueManagement.tsx:29 | the rows shown are an order-preserving subsequence of the list, never more than the total card's count |
| IssueManagement.CardMatchesView | src/pages/IssueManagement.tsx:62-72 | a status card's count equals the number of rows of that status's view |
| IssueManagement.CardsMatchViews | src/pages/IssueManagement.tsx:62-72 | the Processing and Resolved cards equal the lengths of the Processing and Resolved views |
| IssueManagement.ViewsPartition | src/pages/IssueManagement.tsx:29 | the Pending, Processing and Resolved views together have as many rows as the list |
| ProjectList.FilteredProjects | src/pages/ProjectList.tsx:30-33 | no contract; properties in `ProjectList.FilteredProjectsSelects`, `ProjectList.EmptySearchKeepsAll` and `ProjectList.LongerSearchNarrows` |
| ProjectList.FilteredProjectsSelects | src/pages/ProjectList.tsx:30-33 | a project is listed exactly when its lower-cased name or code contains the lower-cased term, and the list keeps the projects' order |
| ProjectList.EmptySearchKeepsAll | src/pages/ProjectList.tsx:30-33 | the empty search term lists every project |
| ProjectList.LongerSearchNarrows | src/pages/ProjectList.tsx:30-33 | under a per-character case mapping, appending characters to the term lists a subsequence of what the shorter term listed |
| ProjectList.StatusColor | src/pages/ProjectList.tsx:35-39 | no contract; properties in `ProjectList.StatusColorCases`, `ProjectList.ApprovedProjectIsBlue` and `ProjectList.SeedStatusColors` |
| ProjectList.StatusColorCases | src/pages/ProjectList.tsx:35-39 | exactly one colour applies: emerald with an approved plan, otherwise blue with an approved project, otherwise amber |
| ProjectList.ApprovedProjectIsBlue | src/pages/ProjectList.tsx:36-37 | an approved project without the letter 'p' in its status is blue, since it cannot hold the approved-plan phrase |
| ProjectList.SeedStatusColors | src/pages/ProjectList.tsx:35-39 | the seed statuses are coloured emerald, blue and amber respectively |
| ProjectDetail.LeadingDigits | src/pages/ProjectDetail.tsx:30 | `parseInt` reads the longest prefix of digits: a prefix of its input, all digits, followed by a non-digit or the end |
| ProjectDetail.ParseInt | src/pages/ProjectDetail.tsx:30 | no contract; properties in `ProjectDetail.ParseIntToDecimal` and `ProjectDetail.ParseIntNoDigit` |
| ProjectDetail.DigitsValueToDecimal | src/pages/ProjectDetail.tsx:30 | reading a decimal rendering back gives the number |
| ProjectDetail.ParseIntToDecimal | src/pages/ProjectDetail.tsx:30 | `parseInt` of a number's decimal rendering is that number |
| ProjectDetail.ParseIntNoDigit | src/pages/ProjectDetail.tsx:30 | `parseInt` is NaN for a string that starts with neither white space, a sign nor a digit |
| ProjectDetail.Merge | src/pages/ProjectDetail.tsx:33-45 | no contract; properties in `ProjectDetail.MergeKeepsProject` |
| ProjectDetail.MergeKeepsProject | src/pages/ProjectDetail.tsx:33-45 | the detail record keeps every stored project field unchanged and carries exactly the given issues |
| ProjectDetail.ProjectIssues | src/pages/ProjectDetail.tsx:44 | no contract; properties in `ProjectDetail.ProjectIssuesSelects` |
| ProjectDetail.ProjectIssuesSelects | src/pages/ProjectDetail.tsx:44 | the issues shown are exactly the stored issues with the route's project id, in stored order |
| ProjectDetail.DetailView | src/pages/ProjectDetail.tsx:28-52 | no contract; properties in `ProjectDetail.DetailViewCases` and `ProjectDetail.LinkFindsProject` |
| ProjectDetail.DetailViewCases | src/pages/ProjectDetail.tsx:28-52 | the page state after the effect: no truthy id leaves it `Loading`; `NotFound` exactly when the parsed id is NaN or matches no stored project; otherwise `Found` with the first match and its issues (rendering `Found` is not modelled, see the line on src/pages/ProjectDetail.tsx:81 under Left out) |
| ProjectDetail.LinkFindsProject | src/pages/ProjectDetail.tsx:29-52 | for the decimal id `n` the page state after the effect is `Found` exactly when the store holds a project with id `n`, and `NotFound` otherwise (rendering `Found` is not modelled, see the line on src/pages/ProjectDetail.tsx:81 under Left out) |
| ProjectDetail.StepTone | src/pages/ProjectDetail.tsx:165 | no contract; properties in `ProjectDetail.StepToneFacts` |
| ProjectDetail.StepToneFacts | src/pages/ProjectDetail.tsx:165 | a step bar is emerald exactly from 100 on, blue otherwise; among the mock steps only the first is emerald |
| ProjectDetail.PercentOrZero | src/pages/ProjectDetail.tsx:131-143 | no contract; properties in `ProjectDetail.PercentOrZeroCases` |
| ProjectDetail.PercentOrZeroCases | src/pages/ProjectDetail.tsx:138 | `(a / b) * 100 \|\| 0` is the exact percentage for b ≠ 0, 0 for 0 / 0, an infinity for any other a / 0, and never NaN |
| ProjectDetail.HandoverPercent | src/pages/ProjectDetail.tsx:138 | no contract; properties in `ProjectDetail.MockPercents` and, through `PercentOrZero`, `ProjectDetail.PercentOrZeroCases` |
| ProjectDetail.LandPercent | src/pages/ProjectDetail.tsx:131 | no contract; properties in `ProjectDetail.MockPercents` and, through `PercentOrZero`, `ProjectDetail.PercentOrZeroCases` |
| ProjectDetail.MockPercents | src/pages/ProjectDetail.tsx:131-143 | with the mock figures the hand-over card computes 100/3 per cent in exact arithmetic, and the land bar 50 per cent |
| JsNumbers.OrZero | src/pages/ProjectDetail.tsx:138 | no contract; properties in `JsNumbers.OrZeroFacts` |
| JsNumbers.Div | src/pages/InventoryReport.tsx:91 | no contract; properties in `JsNumbers.DivByZero` and `ProjectDetail.PercentOrZeroCases` |
| JsNumbers.Mul | src/pages/InventoryReport.tsx:91 | no contract; properties in `InventoryReport.DotAndBadgeShowTier` |
| JsNumbers.Less | src/pages/InventoryReport.tsx:97 | no contract; properties in `JsNumbers.LessNaN` and `JsNumbers.LessStrict` |
| JsNumbers.OrZeroFacts | src/pages/ProjectDetail.tsx:138 | `\|\| 0` never yields NaN, keeps truthy numbers and turns 0 and NaN into 0 |
| JsNumbers.DivByZero | src/pages/InventoryReport.tsx:91 | x / 0 is NaN exactly when x is 0, and otherwise an infinity of x's sign |
| JsNumbers.LessNaN | src/pages/InventoryReport.tsx:97 | no comparison with NaN holds |
| JsNumbers.LessStrict | src/pages/InventoryReport.tsx:97 | `<` on numbers is asymmetric and transitive |
| CityDashboard.IssueTypes | src/pages/CityDashboard.tsx:98-104 | no contract; properties in `CityDashboard.IssueTypesFacts` |
| CityDashboard.KindsTotalBounded | src/pages/CityDashboard.tsx:98-104 | counts of issues over distinct types add up to at most the number of issues |
| CityDashboard.IssueTypesFacts | src/pages/CityDashboard.tsx:98-104 | five slices named legal, land price, residents, resettlement and coordination, in that order; four equal the number of issues of their type; the residents' slice is its count when non-zero and 2 otherwise, never 0; the five true counts sum to at most the number of issues |
| CityDashboard.NotStarted | src/pages/CityDashboard.tsx:207 | no contract; properties in `CityDashboard.NotStartedFacts` |
| CityDashboard.NotStartedFacts | src/pages/CityDashboard.tsx:207 | the 'not started' card is the sum of the three pre-construction counts when all three exist, NaN otherwise |
| CityDashboard.WardBarColor | src/pages/CityDashboard.tsx:452 | no contract; properties in `CityDashboard.WardBarColorFacts` |
| CityDashboard.WardBarColorFacts | src/pages/CityDashboard.tsx:452 | a ward bar is green exactly above 80, blue exactly in (60, 80] and red exactly from 60 down (80 is blue, 60 is red), and more progress never gives a worse colour |
| InventoryReport.Progress | src/pages/InventoryReport.tsx:91 | no contract; properties in `InventoryReport.DotAndBadgeShowTier` and `InventoryReport.NoAffectedIsEmerald` |
| InventoryReport.DotClass | src/pages/InventoryReport.tsx:95-98 | no contract; properties in `InventoryReport.DotAndBadgeShowTier` and `InventoryReport.NoAffectedIsEmerald` |
| InventoryReport.BadgeClass | src/pages/InventoryReport.tsx:103-105 | no contract; properties in `InventoryReport.DotAndBadgeShowTier` and `InventoryReport.NoAffectedIsEmerald` |
| InventoryReport.CountTier | src/pages/InventoryReport.tsx:91-105 | no contract; the whole-number reference tier, equal to what the dot and badge show by `InventoryReport.DotAndBadgeShowTier`; monotone by `InventoryReport.CountTierMonotone` |
| InventoryReport.DotAndBadgeShowTier | src/pages/InventoryReport.tsx:91-105 | the dot and the badge both show the whole-number tier: red iff 2·inventoried < affected, emerald iff 5·inventoried ≥ 4·affected or no household is affected, amber between |
| InventoryReport.NoAffectedIsEmerald | src/pages/InventoryReport.tsx:91-105 | a ward with no affected household gets an emerald dot and badge, since NaN and Infinity fail both tests |
| InventoryReport.CountTierMonotone | src/pages/InventoryReport.tsx:91-105 | for fixed affected households, inventorying more never lowers the tier |
| InventoryReport.PercentBelow | src/pages/InventoryReport.tsx:91-97 | for a positive whole, `x / y * 100 < bound` exactly when `100·x < bound·y` |
| DisbursementReport.RateBadge | src/pages/DisbursementReport.tsx:258-261 | no contract; properties in `DisbursementReport.RateCases` and `DisbursementReport.IconAgreesWithBadge` |
| DisbursementReport.RateIcon | src/pages/DisbursementReport.tsx:263 | no contract; properties in `DisbursementReport.RateCases` and `DisbursementReport.IconAgreesWithBadge` |
| DisbursementReport.RateCases | src/pages/DisbursementReport.tsx:258-263 | rate ≥ 90: emerald with a check; 0 < rate < 90: blue, no icon; rate = 0: red with an alert; rate < 0: red, no icon |
| DisbursementReport.IconAgreesWithBadge | src/pages/DisbursementReport.tsx:258-263 | the check-mark icon appears exactly with the emerald badge, the alert only with red, no icon with blue, and a higher rate never gives a worse badge |

## Left out

- Rendering is not modelled: JSX, recharts, `motion` animations, Tailwind classes through
  `cn`, and the `setTimeout` loading delays. The pages are modelled in the state after
  their effects have run.
- Routing, the entry point and the build configuration (`src/App.tsx`, `src/main.tsx`,
  `vite.config.ts`) are not modelled. The route parameter of the detail page is
  `DetailView`'s `id` argument.
- The formatters of `src/lib/utils.ts` are not modelled; `Intl.NumberFormat` and `toFixed`
  are foreign calls and float formatting.
- The floating-point statistics are not modelled: `totalCapitalPlan`, `totalCapitalActual`,
  `compensationDisbursement` and `overallDisbursementRate`. Their values depend on IEEE
  rounding.
- `JsNumbers.Num` holds exact reals, so IEEE 754 rounding, the sign of zero and integers
  beyond 2^53 are not represented.
- StorageService.GetDashboardStats: `compensationCapital` is `TotalCompensation`, a sum of
  unbounded integers. The `reduce` of src/services/storageService.ts:187 adds doubles, which
  is exact only while the sums stay below 2^53.
- Browser storage, `JSON.parse`/`JSON.stringify` and the clock are abstracted:
  - storage is a map;
  - JSON is the identity;
  - today's date is `GetDashboardStats`'s `today` argument;
  - the seed issues' `created_at` stamps are `InitialIssues`'s `stamps` argument.
- StorageService.GetProjects: a key holding a list of the other record kind reads as `[]`.
  In the browser `JSON.parse` would return that list; malformed JSON, which would throw,
  is not modelled either. Nor is a stored value that is valid JSON but not a list, such as
  "null": `getProjects` would then return `null`, and `getProjectById` would throw at
  `.find`.
- `Text.LexLess` compares code points. JavaScript compares UTF-16 code units, and the two
  differ only for characters above U+FFFF.
- ProjectList.FilteredProjectsSelects: `toLowerCase` is `Text.Lower`, which applies a
  per-character case mapping passed in as `lower` and carries no contract of its own.
  This leaves out multi-character and context-dependent mappings, such as 'İ' and final
  sigma.
- ProjectList.LongerSearchNarrows: holds only for a context-free per-character case mapping.
  JavaScript's `toLowerCase` applies the context-dependent Final_Sigma rule: "aΣ" lowers to
  "aς" but "aΣb" lowers to "aσb". So a project named "aσb" is listed for the longer term "aΣb"
  and not for the shorter term "aΣ", and in the program a longer term's list need not be a
  subsequence of the shorter term's.
- Dashboard.TallyLocations: stated for any trimming function `trim`. `LocationChart`,
  `SegmentsClean` and the chart lemmas use the concrete `Text.Trim`.
- Dashboard.TallyCounts: `locCounts` is a plain object, and the model uses a map whose
  entries come in first-insertion order. The model agrees with the program only for ward
  names that are not properties of `Object.prototype`:
  - a ward named after an inherited function, such as "constructor" or "toString", makes
    `locCounts[trimmed] || 0` read that function, so `+ 1` stores a string rather than a
    count;
  - a ward named "__proto__" is never stored as a key.
  For such names `Dashboard.TallyCounts`, `Dashboard.ChartCounts` and `Dashboard.TallyTotal`
  do not describe the program.
- Dashboard.TallyLocations: JavaScript enumerates integer-like ward names first, in
  ascending order, and not in insertion order. The stable sort keeps that order among
  equal counts, so for such names the chart can differ in the order of tied bars and
  also in which tied wards fill the last of the seven places. With eight wards "1" to "8"
  counted once each, for instance, the program shows "1" to "7" whatever the insertion
  order. The chart properties (`Dashboard.ChartShape`, `Dashboard.ChartCounts`,
  `Dashboard.ChartTop`) hold in either order.
- Dashboard.SortByCountFacts: the stable insertion sort fixes one order among equal
  counts. The lemmas state nothing about that tie order.
- The location line of the detail page (src/pages/ProjectDetail.tsx:81) is not modelled.
  It calls `.map` on `locations`, which is a string, and would throw at render. Every seed
  project has a string `locations`, and src/App.tsx installs no error boundary, so a `Found`
  state of a seed project does not render. `DetailViewCases` and `LinkFindsProject` state
  the page state after the effect, not what is drawn.
- ProjectDetail.ParseIntToDecimal: `parseInt`'s approximation of numbers with more than 20
  significant digits is not modelled. Nor is the link's own rendering: `${project.id}`
  (src/pages/ProjectList.tsx:136) writes an id of 1e21 or more as "1e+21", which `parseInt`
  reads as 1, so `LinkFindsProject` describes the program only for ids below 10^21.
- The hardcoded literal data is not modelled, because it holds only constants:
  - the status counts, investor and ward data of src/pages/CityDashboard.tsx:74-128;
  - src/pages/DisbursementReport.tsx:53-93;
  - `getWardData`;
  - src/pages/LegalReport.tsx and src/pages/PaymentReport.tsx.
  `NotStarted`, `WardBarColor` and `RateBadge` therefore take those values as arguments.
- CityDashboard.WardBarColorFacts: over real progress values. The values are finite
  literals, so NaN is not considered.
- DisbursementReport.RateCases: over real rates. The rates are finite literals, so NaN is
  not considered.
- ProjectDetail.MergeKeepsProject: the spread copies every property of the parsed object.
  The model copies the thirteen declared project fields, so extra JSON properties are not
  represented.
