# dev-metrics commit-pattern engine — a Dafny model

dev-metrics fills a git repository with a plausible development history. The
core modelled here decides what that history looks like:

* a **developer persona** (working hours, time zone, a commit-frequency class,
  per-category weights and description templates);
* the **sprint cycles** of the date range (a placeholder provider that always
  answers with one feature-development cycle at intensity 0.8);
* for every day of every cycle that is not a Saturday, the **day's commits**:
  a commit count drawn from the intensity-adjusted frequency class, distinct
  commit minutes in the work window outside the lunch hour, and for each time
  a category chosen by cumulative weight (with the cycle's phase flooring one
  category), a file count, a change kind and a rendered description;
* the **file analysis** that precedes an edit: splitting a file into lines,
  grouping comment lines into blocks, finding function definitions and the
  indented body after them, finding variable declarations, and dispatching
  over the change generators (all of which are stubs);
* the **generate command's helpers**: `min`, the Fisher–Yates selection of the
  files a commit touches, the guard `min(pattern.NumFiles, len(files))`, and
  the bullet list of changes.

Modules: `Wrappers` (Option), `Rand` (draws), `Dates` (day numbers and Go's
weekday numbering), `Text` (the pieces of Go's `strings` and `path/filepath`
the core uses), `ProjectPatterns`, `CommitPatterns`, `FileModifier` and
`Generate`.

Randomness is never simulated. Every `rand.Intn(n)` is `Rand.Intn(draw, n)`
for an arbitrary natural `draw`; every `rand.Float64()` is a real `u` with
`0 <= u < 1`; every iteration over a Go map walks an explicit key sequence
`order` that lists each key once (`CommitPatterns.Enumerates`). All properties
hold for every choice of draws and every iteration order.

The loops of the source are methods (`GenerateCommitTimes`,
`AdjustCodingStyle`, `SelectCommitType`, `GenerateDayCommits`,
`GeneratePatterns`, `FindComments`, `FindFunctions`, `FindVariables`,
`SuggestChanges`, `SelectRandomFiles`, `FormatChanges`). Each is proved equal
to a function on the inputs defined one step at a time. The properties the
source promises are lemmas about those functions. `selectRandomFiles` keeps its
in-place swaps on an `array`.

### Behaviour of the code worth knowing

* Weekends: the comment `// Skip weekends` at internal/commit_patterns.go:118
  names both days, but the test is `Weekday() < 6` with Go's numbering, where
  Sunday is 0, so only Saturday is skipped (`CommitPatterns.DaysPatterns`,
  `CommitPatterns.Fits`).
* Unknown persona: the lookup `g.personas[personaName]` at
  internal/commit_patterns.go:106 gives the zero persona for a name the
  catalogue lacks, and nothing reports it. Its frequency class `""` gives a
  commit count of 0, so the run silently yields no records
  (`CommitPatterns.PatternsUnknownPersona`).
* Personas: the catalogue (internal/commit_patterns.go:38-76) holds exactly
  `early_bird` and `night_owl`. The `--persona` flag help at
  cmd/generate.go:29 also offers `balanced`, which is therefore an unknown
  name: `--persona balanced` produces no commits and no error
  (`CommitPatterns.BalancedPersonaSilent`).
* Time order: nothing sorts a day's times. Each becomes a commit date at
  cmd/generate.go:149 in the order the minutes were drawn, so a day's commits
  can step back in clock time (`CommitPatterns.CommitTimesDrawOrder`).
* Termination: the retry loop at internal/commit_patterns.go:227 exits only
  once enough distinct non-lunch minutes have been drawn. When more commits
  are asked for than the workday has such minutes, no stream of draws ends it
  (`CommitPatterns.CommitTimesOverbooked`); otherwise some stream does
  (`CommitPatterns.CommitTimesReachable`). No run asks for too many: a
  catalogue persona asks for at most 15 of its 420 free minutes, and the zero
  persona asks for none at the placeholder intensity 0.8
  (`CommitPatterns.CatalogNeverOverbooked`, `CommitPatterns.RunNeverOverbooked`).
  At an intensity above 0.8 the zero persona's class would become
  `moderate`, and its empty work window would make `rand.Intn(0)` panic; the
  placeholder cycle never has such an intensity.
* Categories: the category table has rows only for `feature` and `fix`,
  although the personas also weight `refactor`, `docs` and `test`. Those get
  the zero row: 0 files and change kind `"unknown"`
  (`CommitPatterns.UntabledCategories`). With files available, such a record
  selects no file at all (`Generate.GuardedFileCount`).

## Model

| member | source | states |
|---|---|---|
| Rand.Intn | internal/commit_patterns.go:229 | rand.Intn(n) is some value in [0, n); any value of the range is reachable, because a draw already in range is returned as it is |
| Dates.Weekday | internal/commit_patterns.go:118 | the weekday number lies in [0, 7), with Go's numbering (Sunday 0, Saturday 6) |
| Dates.WeekdayNext | internal/commit_patterns.go:117-118 | stepping one day forward advances the weekday by one modulo 7, and the week repeats every seven days |
| Text.IndexOf | internal/commit_patterns.go:305 | the position of the first occurrence of the separator: it holds the separator and none comes before it |
| Text.IndexOfUnique | internal/commit_patterns.go:305 | the first occurrence is unique: a position holding the separator with none before it is IndexOf |
| Text.Split | internal/commit_patterns.go:305 | strings.Split with a one-character separator gives at least one piece, and no piece contains the separator |
| Text.SplitCount | internal/file_modifier.go:68 | a split has exactly one more piece than the string has separators |
| Text.JoinSplit | internal/file_modifier.go:68 | joining the pieces of a split with the separator gives back the string |
| Text.SplitJoin | internal/file_modifier.go:136 | splitting a join of separator-free pieces gives back the pieces |
| Text.SplitCons | internal/commit_patterns.go:305 | a separator-free head followed by a separator splits into the head and then the split of the rest |
| Text.SplitPair | internal/commit_patterns.go:305-310 | two separator-free pieces around one separator split into exactly those two pieces |
| Text.ReplaceAllAbsent | internal/commit_patterns.go:320-323 | ReplaceAll leaves a string without the pattern's first character unchanged |
| Text.ReplaceAllSkip | internal/commit_patterns.go:320-323 | a prefix without the pattern's first character passes through ReplaceAll unchanged |
| Text.ReplaceAllHere | internal/commit_patterns.go:320-323 | an occurrence at the front is replaced, and the scan resumes right after it |
| Text.ReplaceAllKeep | internal/commit_patterns.go:320-323 | a front character that does not start an occurrence is kept, and the scan resumes at the next character |
| Text.ReplaceAllOnce | internal/commit_patterns.go:320-323 | a single occurrence, with no other start character around it, is replaced by the replacement |
| Text.ReplaceAllPast | internal/commit_patterns.go:320-323 | a piece that starts like the pattern but differs from it is passed over unchanged |
| Text.ReplaceAllAfter | internal/commit_patterns.go:320-321 | only the real occurrence is replaced, even after a piece that starts like the pattern (such as another placeholder) |
| Text.TrimLeftFacts | internal/file_modifier.go:126 | strings.TrimLeft leaves a suffix of the line, strips only cutset characters, and stops at the first other character |
| Text.TrimRightFacts | internal/file_modifier.go:149 | TrimRight leaves a prefix, strips only cutset characters, and stops at the last other character |
| Text.Ext | internal/file_modifier.go:67 | filepath.Ext: a suffix of the path that starts with its only '.' and holds no '/'; it is empty exactly when the final path element has no '.' |
| ProjectPatterns.GenerateSprintCycles | internal/project_patterns.go:32-43 | exactly one cycle, even for an inverted range; it spans exactly the requested range, so it covers every day of it; its phase is feature development, its intensity 0.8 and its focus areas frontend/ui and backend/api |
| ProjectPatterns.SprintFocusAreas | internal/project_patterns.go:40 | the focus areas are "frontend/ui" and "backend/api"; each splits at its single '/' into a component and a feature |
| ProjectPatterns.FrontendArea | internal/project_patterns.go:40 | "frontend/ui" splits into "frontend" and "ui" |
| ProjectPatterns.BackendArea | internal/project_patterns.go:40 | "backend/api" splits into "backend" and "api" |
| CommitPatterns.CatalogWellFormed | internal/commit_patterns.go:38-76 | the catalogue holds exactly early_bird and night_owl; each has a non-empty work window within the day and non-negative weights |
| CommitPatterns.Max | internal/commit_patterns.go:329-334 | max is at least both arguments and is one of them |
| CommitPatterns.FrequencyIndex | internal/commit_patterns.go:129-138 | a class on the scale is found at its own position; any other string is left at position 0 |
| CommitPatterns.AdjustFrequency | internal/commit_patterns.go:128-150 | above 0.8, one step up (capped at frequent); below 0.4, one step down (floored at sparse); otherwise the base. An off-scale base becomes "moderate" above 0.8 and stays as it is otherwise |
| CommitPatterns.CommitCount | internal/commit_patterns.go:199-207 | [8,15] for frequent, [4,8] for moderate, [1,4] for sparse, exactly 0 for any other string |
| CommitPatterns.CommitCountCovers | internal/commit_patterns.go:199-207 | every count in a class's range, both ends included, is produced by some draw |
| CommitPatterns.TimesInvariant | internal/commit_patterns.go:227-246 | after any prefix of the random stream: at most numCommits times, each in the window and off lunch, pairwise different minutes, one used slot per time; the used slots are among the slots drawn, and are all of them while the count is unmet |
| CommitPatterns.TimesStepValid | internal/commit_patterns.go:228-245 | one turn of the retry loop keeps that invariant |
| CommitPatterns.TimesFullStaysFull | internal/commit_patterns.go:227 | once the loop has its count, further draws change nothing |
| CommitPatterns.CommitTimesCount | internal/commit_patterns.go:227-246 | the loop yields min(numCommits, number of distinct non-lunch slots drawn) times, so exactly numCommits once the stream has supplied that many usable minutes |
| CommitPatterns.LunchFreeBelowFacts | internal/commit_patterns.go:221-236 | the non-lunch slots of a workday are the minutes outside [240, 300), and their number is AvailableSlots |
| CommitPatterns.LunchFreeBelowMembers | internal/commit_patterns.go:229-236 | a slot below m is non-lunch exactly when it lies outside [240, 300) |
| CommitPatterns.LunchFreeBelowSize | internal/commit_patterns.go:221-236 | the number of non-lunch slots below m is m up to 240, then 240 up to 300, then m - 60 |
| CommitPatterns.LunchFreeBelowCounted | internal/commit_patterns.go:229-236 | the set of non-lunch slots has as many elements as the slot-by-slot count |
| CommitPatterns.LunchFreeCountValue | internal/commit_patterns.go:221-222 | the slot-by-slot count has that closed form |
| CommitPatterns.LunchMinute | internal/commit_patterns.go:229-234 | minute s of the workday falls in the hour startHour + 4 exactly when 240 <= s < 300 |
| CommitPatterns.DrawnSlotsWithinDay | internal/commit_patterns.go:229-236 | every usable slot drawn is a non-lunch slot of the workday |
| CommitPatterns.CommitTimesOverbooked | internal/commit_patterns.go:227-246 | when more commits are asked for than the workday has non-lunch minutes, no stream of draws completes the count, so the loop never exits |
| CommitPatterns.FreshDrawsSlots | internal/commit_patterns.go:227-243 | a stream of m fresh free minutes, for m no larger than the workday's non-lunch minutes, draws exactly m distinct free minutes |
| CommitPatterns.CommitTimesReachable | internal/commit_patterns.go:227-246 | whenever the count fits the workday's non-lunch minutes, some stream of draws completes it, so the loop can exit |
| CommitPatterns.CommitTimesNone | internal/commit_patterns.go:224-227 | with no commits asked for there are no times |
| CommitPatterns.CommitTimesDrawOrder | internal/commit_patterns.go:227-246 | the times come in draw order, not clock order: drawing minute 60 and then minute 0 on a 9-to-17 day gives 10:00 before 9:00 |
| CommitPatterns.GenerateCommitTimes | internal/commit_patterns.go:209-249 | the retry loop computes CommitTimes; at most numCommits times, each on the day in the zone, inside the work window, off the lunch hour, with minute and second in [0, 60), no two in the same clock minute |
| CommitPatterns.AdjustedStyleFloors | internal/commit_patterns.go:251-270 | the phase's category (feature, fix or docs) becomes max(floor, old weight or 0) and is added when missing; every other weight is kept; planning, maintenance and hotfix leave the weights as they are |
| CommitPatterns.AdjustedStyleIdempotent | internal/commit_patterns.go:260-267 | adjusting twice is adjusting once, and non-negative weights stay non-negative |
| CommitPatterns.AdjustCodingStyle | internal/commit_patterns.go:251-270 | the copy loop and the phase switch compute AdjustedStyle; the input map, a value, is not changed |
| CommitPatterns.FirstReaching | internal/commit_patterns.go:278-286 | the walk returns only keys of the iteration order |
| CommitPatterns.TotalWeight | internal/commit_patterns.go:273-276 | the first loop sums all the weights |
| CommitPatterns.SelectCommitType | internal/commit_patterns.go:272-293 | the walk computes SelectedType; the result is a key of a non-empty map, and "feature" for an empty one |
| CommitPatterns.FirstReachingStep | internal/commit_patterns.go:281-286 | one turn of the walk stops at the current key once the running sum reaches r, and otherwise goes on with the larger sum |
| CommitPatterns.SelectedTypeInStyle | internal/commit_patterns.go:288-292 | the selected category is a key of a non-empty map, and "feature" for an empty one |
| CommitPatterns.WeightOfNonNegative | internal/commit_patterns.go:273-276 | non-negative weights have a non-negative sum |
| CommitPatterns.FirstReachingIndex | internal/commit_patterns.go:278-286 | started at position i with the sum of the keys before i, the walk stops at the first later position whose cumulative weight reaches r |
| CommitPatterns.ThresholdBelowTotal | internal/commit_patterns.go:278 | u * total never exceeds the total |
| CommitPatterns.ScaledBelow | internal/commit_patterns.go:278 | a Float64 draw scales a non-negative total to at most the total |
| CommitPatterns.SelectedTypeIsFirstReaching | internal/commit_patterns.go:272-293 | with non-negative weights the fallback is never taken: the result is the first key, in iteration order, whose cumulative weight reaches u * total |
| CommitPatterns.WeightedSelectionExample | internal/commit_patterns.go:272-293 | for {feature: 0.8, fix: 0.2}, in either iteration order, the draws that select feature form an interval of length 0.8 |
| CommitPatterns.ComponentAndFeature | internal/commit_patterns.go:305-310 | the component is the longest '/'-free prefix of the area; the feature is the next '/'-free piece, or "feature" when the area has no '/' |
| CommitPatterns.DescriptionFallbacks | internal/commit_patterns.go:300-315 | no focus areas gives "Update codebase"; no templates gives "Update " + the drawn area's component |
| CommitPatterns.DescriptionComponentSlot | internal/commit_patterns.go:317-325 | a template with one {component} slot renders with the drawn component in that slot |
| CommitPatterns.DescriptionFeatureComponentSlots | internal/commit_patterns.go:317-325 | a template with a {feature} slot before a {component} slot renders with both filled from the drawn area |
| CommitPatterns.KeepFeatureSlot | internal/commit_patterns.go:320 | the {component} pass leaves a template with only a {feature} slot unchanged |
| CommitPatterns.DescriptionFeatureSlot | internal/commit_patterns.go:299-324 | a template with one {feature} slot and no other braces renders as its text with the focus area's feature in the slot |
| CommitPatterns.FillComponentAfterFeature | internal/commit_patterns.go:320 | the {component} pass leaves a {feature} slot before it in place |
| CommitPatterns.DescriptionExample | internal/commit_patterns.go:295-326 | "Add {feature} to {component}" with the area "backend/auth" renders as "Add auth to backend", whatever the draws |
| CommitPatterns.BackendAuthArea | internal/commit_patterns.go:305-310 | "backend/auth" has component "backend" and feature "auth" |
| CommitPatterns.FrontendUiArea | internal/commit_patterns.go:305-310 | "frontend/ui" has feature "ui" |
| CommitPatterns.FeatureDescriptionExample | internal/commit_patterns.go:295-324 | the template "Implement {feature}" (the third of the catalogue's templates) with focus area frontend/ui renders as "Implement ui" |
| CommitPatterns.NumFilesFor | internal/commit_patterns.go:175-179 | the file count lies in [lo, lo + max(hi - lo + 1, 1) - 1] |
| CommitPatterns.ChangeTypeFor | internal/commit_patterns.go:182-185 | the change kind is one of the row's kinds, or "unknown" when the row has none |
| CommitPatterns.CommitsForIndex | internal/commit_patterns.go:170-194 | one record per commit time, in the same order, the k-th built from the k-th time and the k-th draws |
| CommitPatterns.CommitsForExtend | internal/commit_patterns.go:170-193 | the records of one more time are the earlier records followed by the new one |
| CommitPatterns.NewCommit | internal/commit_patterns.go:171-193 | the loop body selects the category, draws the file count and change kind, and renders the description, as MakeCommit |
| CommitPatterns.GenerateDayCommits | internal/commit_patterns.go:152-197 | the count, the times, the adjusted weights and the record loop compute DayCommits |
| CommitPatterns.DayCommitsTimes | internal/commit_patterns.go:161-170 | a day has one record per commit time, in the order the times were drawn, each in the work window and off the lunch hour, in pairwise different minutes; exactly the day's commit count when the stream draws that many distinct free minutes, otherwise one per free minute drawn, and none for an empty work window |
| CommitPatterns.DayCommitsRecords | internal/commit_patterns.go:170-193 | each record's category is the one selected from the adjusted weights (a key of them), its file count lies in the category's range, its change kind is one of the category's kinds, or 0 files and "unknown" when the table has no row |
| CommitPatterns.MakeCommitFacts | internal/commit_patterns.go:171-193 | the same facts for one record, built from one time and one set of draws |
| CommitPatterns.TabledChanges | internal/commit_patterns.go:81-88 | every row of the category table lists at least one change kind |
| CommitPatterns.UntabledCategories | internal/commit_patterns.go:77-90 | refactor, docs and test get 0 files and "unknown"; feature gets 2 to 5 files and fix 1 to 3 |
| CommitPatterns.ResolvePersona | internal/commit_patterns.go:97-106 | the empty name picks some catalogue persona; a known name gets its persona; an unknown name gets the zero persona |
| CommitPatterns.RunPersona | internal/commit_patterns.go:38-76 | a resolved persona has a non-empty work window, or the empty frequency class, so its commit-time loop never calls rand.Intn(0) |
| CommitPatterns.DaysPatternsExtend | internal/commit_patterns.go:117-121 | one more day adds that day's commits when it is not a Saturday, and nothing on a Saturday |
| CommitPatterns.GenerateCycle | internal/commit_patterns.go:114-122 | the day-stepping loop computes DaysPatterns over the cycle's range |
| CommitPatterns.ChoosePersona | internal/commit_patterns.go:97-106 | the persona step computes ResolvePersona |
| CommitPatterns.GeneratePatterns | internal/commit_patterns.go:96-126 | the loops compute Patterns: the concatenation over cycles, then over the non-Saturday days of each cycle, of the day's commits |
| CommitPatterns.DayCommitsFit | internal/commit_patterns.go:152-197 | every record of a day lies on that day and satisfies Fits |
| CommitPatterns.DaysPatternsFit | internal/commit_patterns.go:117-121 | every record of a cycle's days lies in the range, on a day other than Saturday, and satisfies Fits |
| CommitPatterns.DaysPatternsByDay | internal/commit_patterns.go:117-121 | the records of a cycle come day by day: a later record is never on an earlier day |
| CommitPatterns.DaysPatternsSilent | internal/commit_patterns.go:106 | a persona with the empty frequency class makes no commits on any day |
| CommitPatterns.PatternsOneCycle | internal/commit_patterns.go:109-123 | a run is the records of the placeholder cycle's days |
| CommitPatterns.PatternsFit | internal/commit_patterns.go:96-126 | every record of a run lies in [start, end), not on a Saturday, inside the persona's hours and off lunch; its category is one the persona weights; its file count and change kind come from the category's row; the records come day by day |
| CommitPatterns.PatternsEmptyRange | internal/commit_patterns.go:117 | end <= start gives no records |
| CommitPatterns.PatternsUnknownPersona | internal/commit_patterns.go:106 | an unknown persona name gives no records over any range, and no error |
| CommitPatterns.BalancedPersonaSilent | cmd/generate.go:29 | the persona "balanced" offered by the flag help is not in the catalogue, and a run asked for it gives no records |
| CommitPatterns.PlaceholderKeepsFrequency | internal/commit_patterns.go:128-150 | the placeholder cycle's intensity leaves every frequency class, including an unknown one, as it is |
| CommitPatterns.CatalogNeverOverbooked | internal/commit_patterns.go:38-76 | a catalogue persona at any intensity asks for no more commits than its workday has non-lunch minutes |
| CommitPatterns.RunNeverOverbooked | internal/commit_patterns.go:106-121 | no persona a run can resolve asks, on a day of the placeholder cycle, for more commits than its workday has non-lunch minutes |
| CommitPatterns.PatternsOneDay | internal/commit_patterns.go:114-121 | a one-day run is that day's commits at the persona's own frequency class (intensity 0.8 is not above 0.8), or nothing on a Saturday |
| FileModifier.NewFileModifierTables | internal/file_modifier.go:24-42 | every extension with a function pattern has a comment prefix; Java, C++ and Rust get comment blocks but no function detection; Python's prefix is "#", all others "//" |
| FileModifier.CommentStylesTable | internal/file_modifier.go:26-34 | the seven extensions with a comment prefix, and their prefixes |
| FileModifier.FuncPatternsTable | internal/file_modifier.go:35-40 | the four extensions with a function pattern |
| FileModifier.CommentFlags | internal/file_modifier.go:149-150 | a line is flagged exactly when, after TrimSpace, it begins with the comment prefix |
| FileModifier.CommentScanInvariant | internal/file_modifier.go:148-159 | after n lines, the closed blocks are increasing with gaps, each all-comment and bounded by non-comments; the open block ends at the last line; every comment line seen is in some block |
| FileModifier.CommentStepComment | internal/file_modifier.go:150-154 | a comment line opens a block or extends the open one, keeping the invariant |
| FileModifier.CommentStepClose | internal/file_modifier.go:155-157 | a non-comment line closes the open block, keeping the invariant |
| FileModifier.ScanBlocksMaximalRuns | internal/file_modifier.go:144-166 | the blocks of the scan are exactly the maximal runs of flagged lines |
| FileModifier.RunsWithOpenBlock | internal/file_modifier.go:161-163 | the block still open at the end of the file completes the list of maximal runs |
| FileModifier.CommentBlocksMaximalRuns | internal/file_modifier.go:144-166 | each block [s, e] has s <= e inside the file and holds only comment lines; the lines just before and after it are not comments, or it touches the file's edge; blocks are increasing and disjoint; every comment line is in a block |
| FileModifier.FindComments | internal/file_modifier.go:144-166 | the pass over the lines computes CommentBlocksOf |
| FileModifier.EndFrom | internal/file_modifier.go:127-130 | the scan stops at the first line that does not continue the body, or at the end of the file |
| FileModifier.FunctionAtFacts | internal/file_modifier.go:125-137 | an entry names the first group and starts at the line; its end is the first later line that is non-empty and has trimmed text no longer than the indentation, or the end of the file; its content is the span joined by "\n" |
| FileModifier.FunctionsInEntries | internal/file_modifier.go:122-139 | each entry belongs to a matching line |
| FileModifier.FunctionsInOrdered | internal/file_modifier.go:122-139 | entries come in strictly increasing line order |
| FileModifier.FunctionsInComplete | internal/file_modifier.go:122-139 | every matching line has an entry |
| FileModifier.FunctionsInFacts | internal/file_modifier.go:119-142 | findFunctions reports exactly the matching lines, one entry each, in increasing order |
| FileModifier.FindFunctions | internal/file_modifier.go:119-142 | the loop computes FunctionsIn |
| FileModifier.ScanFunctionEnd | internal/file_modifier.go:125-130 | the inner while loop finds FunctionEnd |
| FileModifier.VariablePattern | internal/file_modifier.go:172-181 | there is a declaration pattern exactly for .go, .js, .ts and .py |
| FileModifier.VariableAtFacts | internal/file_modifier.go:184-195 | with two groups the kind is the first group and the name the second; with one group the name is that group and the kind is "var" |
| FileModifier.VariablesInEntries | internal/file_modifier.go:183-197 | each entry belongs to a declaring line |
| FileModifier.VariablesInOrdered | internal/file_modifier.go:183-197 | entries come in strictly increasing line order |
| FileModifier.VariablesInComplete | internal/file_modifier.go:183-197 | every declaring line has an entry |
| FileModifier.VariablesFacts | internal/file_modifier.go:168-200 | nothing for an extension other than .go/.js/.ts/.py; otherwise exactly the declaring lines, one entry each, in increasing order |
| FileModifier.FindVariables | internal/file_modifier.go:168-200 | the loop computes Variables; empty for an unsupported extension |
| FileModifier.PrepareFileContent | internal/file_modifier.go:66-88 | the lines are the content split at "\n" and join back to it; functions only for an extension with a pattern; comments only for one with a prefix; the variables as findVariables finds them; never an error |
| FileModifier.ChangesFromNone | internal/file_modifier.go:204-227 | however many generators run, the stubs contribute nothing |
| FileModifier.SuggestChanges | internal/file_modifier.go:91-117 | the first one or two generators (two when there is more than one function) are called, and the result is always empty |
| Generate.Min | cmd/generate.go:161-166 | min is no larger than either argument and equals one of them |
| Generate.Swap | cmd/generate.go:175 | an exchange keeps the length |
| Generate.SwapPermutes | cmd/generate.go:175 | an exchange keeps the multiset of files |
| Generate.SwapIndex | cmd/generate.go:174 | the partner index satisfies 0 <= j <= i |
| Generate.ShuffleDown | cmd/generate.go:173-176 | every shuffle state has the input's length |
| Generate.ShuffleDownPermutes | cmd/generate.go:173-176 | every shuffle state is a permutation of the input |
| Generate.SwapDistinct | cmd/generate.go:175 | an exchange keeps distinct files distinct |
| Generate.ShuffleDownDistinct | cmd/generate.go:173-176 | distinct files stay distinct through the shuffle |
| Generate.ShuffledPrefix | cmd/generate.go:178 | the first n files of the shuffle are exactly n files, drawn without replacement from the input, pairwise different when the input is |
| Generate.SelectRandomFiles | cmd/generate.go:168-179 | the in-place shuffle of a copy followed by taking n computes the prefix of Shuffled: n files, a sub-multiset of the input; the input is not changed |
| Generate.BulletedCons | cmd/generate.go:183-185 | the first change's line comes first |
| Generate.BulletSplit | cmd/generate.go:184 | one bullet line splits off the front of a list |
| Generate.BulletedLines | cmd/generate.go:181-187 | the list splits back into its bullet lines and one empty piece, so the changes can be read back when none contains a line break |
| Generate.FormatChanges | cmd/generate.go:181-187 | the loop computes Bulleted: "- " + change + "\n" for each change in order, "" for none |
| Generate.GuardedFileCount | cmd/generate.go:109-110 | with some file available, min(record's file count, number of files) is a legal count for selectRandomFiles; it is at least 1 for feature and fix and 0 for the other categories |

## Left out

- I/O: reading and writing files, git, the LLM calls and the orchestration of the generate command (cmd/generate.go:32-159, apart from the helpers above) are not part of this model.
- Configuration, setup and validation (internal/config.go, internal/setup.go, cmd/validate.go, cmd/root.go, cmd/setup.go) are not part of this model.
- Regular expressions: each compiled pattern is an abstract function from a line to its submatches (`FileModifier.Regexp`). The concrete patterns of internal/file_modifier.go:36-39 and 174-178 are not interpreted. The model assumes only what FindStringSubmatch promises: the whole match plus one entry per group. Because findVariables compiles its patterns on every call, they are carried as parameters in the FileModifier value.
- Time zones: `time.LoadLocation` and its fallback to UTC (internal/commit_patterns.go:216-219) are left out. The zone is an opaque name carried into each timestamp.
- Dates are day numbers, where day 0 is 1970-01-01. Calendar arithmetic such as AddDate, months and daylight saving is not modelled.
- The statistics of math/rand are not modelled. Every property holds for every draw, so nothing is said about distributions.
- Go map iteration order is a parameter `order`. Randomisation between runs is not modelled.
- Floating point: weights, intensity and the Float64 draw are reals, so rounding of float64 sums is not modelled.
- Byte lengths: Go's `len` on strings counts bytes, while the model counts characters. The two agree on ASCII lines.
- CommitPatterns.GenerateCommitTimes: the infinite random stream is a finite prefix, and the loop also stops when the prefix is used up. Exactly numCommits times are promised by CommitPatterns.CommitTimesCount once that many distinct usable minutes have been drawn.
- CommitPatterns.GenerateCommitTimes: it requires a non-empty work window when commits are asked for, because rand.Intn(0) panics in the source. Every persona the run can use meets this requirement (CommitPatterns.RunPersona).
- CommitPatterns.SelectedType: the fallback of selectCommitType starts a second range over the map, whose order Go may choose afresh; the model takes the first key of the walk's own order. The branch is never taken with non-negative weights and a Float64 draw (CommitPatterns.SelectedTypeIsFirstReaching).
- Go panics that the source cannot reach in a run are preconditions: a negative commit count, and n outside [0, len(files)] for selectRandomFiles (the guard of cmd/generate.go:109 rules the second one out).
- Helper methods: some loops of the source are split off as methods of their own, so that each proof stays small. These are CommitPatterns.TotalWeight, CommitPatterns.NewCommit, CommitPatterns.GenerateCycle, CommitPatterns.ChoosePersona and FileModifier.ScanFunctionEnd. Their effect is unchanged.
- Text.Split: modelled only for a one-character separator, the only kind the core uses.
- Text.TrimLeft and Text.TrimRight are modelled with an explicit cutset. TrimSpace uses the white-space characters of unicode.IsSpace.
