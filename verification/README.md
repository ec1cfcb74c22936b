# Career development app — a verified model of its core

This project models the logic of a React career-assessment wizard. A user
works through self-assessment steps: values, work requirements, strengths,
five-why problem analysis, a wheel of life, and a work reflection matrix.
The Dream Job step then matches the resulting profile against nine career
archetypes. The model covers:

- the archetype matching engine: the catalog keywords, profile extraction,
  the weighted scorer, the top-three ranking and theme identification;
- the validation and sanitising helpers, and the sliding-window rate
  limiter;
- the wizard's step machine: navigation, the completed-step list and the
  Dream Job lock;
- the state handlers of each step: the values funnel, requirement ranking,
  strength collection, five-why problems, wheel scores and the work-task matrix;
- the read-only aggregations of the summary, overview and dashboard pages;
- the sign-up form checks.

Pure JavaScript helpers become Dafny functions. Each piece of React state
becomes a field of a class, and each handler that replaces state becomes a
method with `modifies this` whose `ensures` gives the complete new state.
A `saved` field on each class stands for the value last passed to
`updateFormData`. Loops in the source (`forEach` with `push`, `+=`,
`completed++`) become `while` loops proved against a specification
function. Properties of the specification functions are proved as lemmas.

Modelling conventions:

- JavaScript strings are `seq<char>`. `toLowerCase` lower-cases ASCII
  letters only.
- Numbers are exact `real`s or `int`s. `Math.round(x)` is `floor(x + 1/2)`.
- Dynamic JSON values (`Json.Value`) are used where the source inspects
  `typeof`.
- The `||` defaults of the source are written out as explicit defaults.
- `Date.now()`, `new Date()` and the rate limiter's `now` are parameters.
- The assessment-record sanitiser takes a `Validation.Sanitiser` argument.
  `AsWritten` is the single-pass `sanitizeText` of the source, and every
  method of the record sanitiser uses it. `Intended` repeats the
  replacements until none applies. "Clean" text means at most 1000
  characters with no '<' or '>'. Under `Intended` it also means no
  `javascript:` and no `on…=` handler.

Modules, one per source file plus shared helpers:

- `Wrappers`: `Option` and `Result`.
- `Lists`: filter, toggle, remove, `arrayMove`, de-duplication and
  subsequences.
- `Sorting`: the stable sort of `Array.prototype.sort` with a numeric
  comparator.
- `JsMath`: `Math.round`.
- `JsText`: character classes, `trim`, `split`, `join` and `includes`.
- `Json`: dynamic JSON values.
- `Profile`: the typed form data.
- `CappedSelection`: the capped toggle shared by the two simple pickers.

## Model

| member | source | states |
|---|---|---|
| DreamJobDiscovery.Catalog | src/components/steps/DreamJobDiscoveryStep.js:26-144 | the catalog holds nine archetypes, each with non-empty value, task, strength and requirement keyword lists |
| DreamJobDiscovery.Flat | src/components/steps/DreamJobDiscoveryStep.js:157-173 | the flattened work or friend strengths are exactly the non-empty strings of some entry's list |
| DreamJobDiscovery.HighEnergyNames | src/components/steps/DreamJobDiscoveryStep.js:174-176 | the names kept are exactly those of tasks with energy at least 2 |
| DreamJobDiscovery.CollectStrengths | src/components/steps/DreamJobDiscoveryStep.js:157-173 | the push loops build exactly the strength list of the insights (work, then tests, then friends, duplicates kept) |
| DreamJobDiscovery.CollectSatisfyingAreas | src/components/steps/DreamJobDiscoveryStep.js:182-190 | the loop over the eight life areas builds exactly the satisfying-area list |
| DreamJobDiscovery.GetPersonalInsights | src/components/steps/DreamJobDiscoveryStep.js:147-193 | the insights object is the one the extraction functions define |
| DreamJobDiscovery.StrengthsExtracted | src/components/steps/DreamJobDiscoveryStep.js:157-179 | a string is an extracted strength iff it is non-empty and appears in a work entry, in the test list or in a friend's list |
| DreamJobDiscovery.TopRequirementsPrefix | src/components/steps/DreamJobDiscoveryStep.js:177-179 | the top requirements are the names of the first min(n, 5) requirements, in order |
| DreamJobDiscovery.SatisfyingAreasExact | src/components/steps/DreamJobDiscoveryStep.js:182-190 | an area is satisfying iff it is one of the eight life areas rated at least 2; the list follows the fixed area order |
| DreamJobDiscovery.MatchCount | src/components/steps/DreamJobDiscoveryStep.js:210-247 | each user item counts at most once, so the count never exceeds the list length |
| DreamJobDiscovery.WeightsSumToOne | src/components/steps/DreamJobDiscoveryStep.js:199-259 | the six weights 1/4, 1/5, 1/5, 3/20, 1/10 and 1/10 sum to 1 |
| DreamJobDiscovery.RatioCapInactive | src/components/steps/DreamJobDiscoveryStep.js:216-247 | with the count at most the floored length, the `Math.min(…, 1)` cap never changes the ratio |
| DreamJobDiscovery.SubScoreExact | src/components/steps/DreamJobDiscoveryStep.js:216-247 | each keyword sub-score lies in 0..100, is 0 for an empty list, and otherwise equals count × 100 / length |
| DreamJobDiscovery.ScoreInRange | src/components/steps/DreamJobDiscoveryStep.js:199-267 | the weighted total lies in 0..100, and so do the rounded score and every breakdown entry |
| DreamJobDiscovery.CalculateArchetypeMatch | src/components/steps/DreamJobDiscoveryStep.js:198-280 | the step-by-step `totalScore +=` method returns the specified match, and its score is in 0..100 |
| DreamJobDiscovery.SelfSelectionAddsTen | src/components/steps/DreamJobDiscoveryStep.js:255-259 | selecting an archetype raises its score by exactly 10 points |
| DreamJobDiscovery.EmptyProfileScore | src/components/steps/DreamJobDiscoveryStep.js:216-259 | an empty, unselected profile scores 3 (balance 25, every other part 0) for every archetype |
| DreamJobDiscovery.SelfMatchFull | src/components/steps/DreamJobDiscoveryStep.js:216-247 | a non-empty keyword list matched against itself gives sub-score 100 |
| DreamJobDiscovery.PerfectMatch | src/components/steps/DreamJobDiscoveryStep.js:199-259 | a profile that copies an archetype's keywords, has career satisfying and selects that archetype scores exactly 100 |
| DreamJobDiscovery.FactorsWithinMatches | src/components/steps/DreamJobDiscoveryStep.js:268-278 | each matching-factor list is an ordered sub-list of its user list and is never longer than the match count |
| DreamJobDiscovery.AllMatches | src/components/steps/DreamJobDiscoveryStep.js:284-287 | one match per catalog archetype, in catalog order |
| DreamJobDiscovery.TopMatchesRanked | src/components/steps/DreamJobDiscoveryStep.js:283-292 | three results are returned, from a permutation of all nine sorted by non-increasing score; every returned score is at least every omitted one; equal scores keep catalog order |
| DreamJobDiscovery.IdentifyThemes | src/components/steps/DreamJobDiscoveryStep.js:365-401 | the push loops build exactly the specified theme list |
| DreamJobDiscovery.PushStrengthThemes | src/components/steps/DreamJobDiscoveryStep.js:376-387 | the `forEach` over the strength patterns pushes exactly one theme per pattern with evidence, in pattern order |
| DreamJobDiscovery.PushValueThemes | src/components/steps/DreamJobDiscoveryStep.js:389-398 | the three value checks push exactly the specified value themes, in order |
| DreamJobDiscovery.StrengthThemesSound | src/components/steps/DreamJobDiscoveryStep.js:365-401 | every strength theme names a pattern and has non-empty evidence, all of it user strengths that match that pattern |
| DreamJobDiscovery.StrengthThemesComplete | src/components/steps/DreamJobDiscoveryStep.js:365-401 | a pattern that some user strength matches yields a theme |
| DreamJobDiscovery.ArchetypeSelection.ToggleArchetype | src/components/steps/DreamJobDiscoveryStep.js:1018-1029 | the selection is toggled and saved into the dream-job record with every other field kept |
| Validation.ValidateEmail | src/utils/validation.js:7-14 | only strings of 1..254 characters are accepted |
| Validation.EmailHasOneAt | src/utils/validation.js:11-13 | an accepted address contains exactly one '@' |
| Validation.PasswordValidIff | src/utils/validation.js:17-44 | valid iff 8..128 characters with an upper-case letter, a lower-case letter, a digit and a special character; "Password is strong" iff valid |
| Validation.SanitizeTextAsWritten | src/utils/validation.js:47-56 | the single-pass sanitiser returns "" for empty or non-string input, and otherwise at most 1000 characters with no '<' or '>' |
| Validation.SanitizeLeavesProtocol | src/utils/validation.js:50-55 | the single pass turns "jajavascript:vascript:" into "javascript:" |
| Validation.SanitizeText | src/utils/validation.js:47-56 | the repeated-pass sanitiser keeps those guarantees and also leaves no `javascript:` and no `on…=` handler |
| Validation.SanitizeAgreesWhenOnePassSuffices | src/utils/validation.js:50-55 | whenever one pass leaves no pattern, the two sanitisers agree |
| Validation.Sanitise | src/utils/validation.js:47-56 | either sanitiser gives "" for empty or non-string input and otherwise clean text |
| Validation.Clamp | src/utils/validation.js:78 | the result lies in [-b, b], equals x inside it, and is the nearer bound outside it |
| Validation.SanitizeFields | src/utils/validation.js:73-81 | for either sanitiser, a sanitised item keeps only clean strings and numbers in [-10, 10], under keys of the input |
| Validation.SanitizeFieldsKeeps | src/utils/validation.js:74-80 | every string property survives, passed through the chosen sanitiser; every number survives clamped to [-10, 10] |
| Validation.SanitizeItem | src/utils/validation.js:71-84 | an item fails exactly when it is null (`Object.keys(null)` throws); otherwise it is safe: clean text or clean fields |
| Validation.SanitizeItems | src/utils/validation.js:69-84 | a successful map keeps the length, and every item is safe for the chosen sanitiser |
| Validation.SanitizeItemsFails | src/utils/validation.js:69-84 | the array fails iff it contains null |
| Validation.SanitizeItemsFailureSticks | src/utils/validation.js:69-84 | once a prefix has thrown, later items do not change the outcome |
| Validation.ArrayPart | src/utils/validation.js:67-86 | the array sections are lists of at most 50 safe items, under the three array field names |
| Validation.ArrayPartFails | src/utils/validation.js:67-86 | the array sections fail iff one of the first 50 items of one of them is null |
| Validation.ArrayPartFailureSticks | src/utils/validation.js:67-86 | a failure in an earlier field decides the result |
| Validation.ArrayPartLengths | src/utils/validation.js:69-70 | each sanitised array holds the first min(n, 50) items |
| Validation.CleanValues | src/utils/validation.js:93-96 | cleaned value lists hold only entries that pass `value && value.length > 0`, strings among them clean |
| Validation.CleanValuesKeeps | src/utils/validation.js:95-96 | a string entry is kept, passed through the chosen sanitiser, whenever that leaves something |
| Validation.ValueListsOf | src/utils/validation.js:89-99 | all, top10 and top5 are truncated to 100, 10 and 5 entries, and every entry kept is safe for the chosen sanitiser |
| Validation.WheelFields | src/utils/validation.js:102-111 | wheel numbers are clamped to [-3, 3]; objects are kept; strings and booleans are dropped |
| Validation.AssessmentFails | src/utils/validation.js:59-62 | a non-object input throws "Invalid assessment data format"; an object fails only on a null array item |
| Validation.AssessmentSafe | src/utils/validation.js:64-113 | a successful result is an object whose keys are only the five section names and whose sections are all safe: as written, text is at most 1000 characters with no angle brackets; with the intended sanitiser, also free of `javascript:` and handlers |
| Validation.OneTaskRecordOf | src/utils/validation.js:64-84 | a record holding one work task `{name: t}` comes back as the same record with `t` passed through the chosen sanitiser |
| Validation.AssessmentKeepsProtocol | src/utils/validation.js:76 | as written, `{workTasks: [{name: "jajavascript:vascript:"}]}` is accepted with the name `javascript:`; with the intended sanitiser the name holds no `javascript:` |
| Validation.SanitizeObjectItem | src/utils/validation.js:73-81 | the `forEach` over keys, with the single-pass sanitiser, builds exactly the sanitised properties |
| Validation.SanitizeArray | src/utils/validation.js:69-84 | the loop maps the first 50 items with the single-pass sanitiser exactly as specified, including the throw on null |
| Validation.SanitizeValues | src/utils/validation.js:89-99 | the loop builds exactly the value lists specified with the single-pass sanitiser |
| Validation.SanitizeWheel | src/utils/validation.js:102-111 | the loop builds exactly the specified wheel properties |
| Validation.ValidateAssessmentData | src/utils/validation.js:59-114 | the method returns exactly the record or error specified with the single-pass sanitiser |
| Validation.Recent | src/utils/validation.js:124 | the recent attempts are exactly the stored ones inside the window, in stored order |
| Validation.DecideIff | src/utils/validation.js:119-141 | a call is allowed iff fewer than maxAttempts recent attempts are stored; remaining = max − recent − 1; a denial's reset time lies after now |
| Validation.RateLimiter.constructor | src/utils/validation.js:116-117 | the limiter starts with an empty map |
| Validation.CreateDefaultRateLimiter | src/utils/validation.js:117 | called without arguments, the limiter allows 5 attempts per window of 900000 ms (fifteen minutes) and starts with no attempts stored |
| Validation.RateLimiter.Check | src/utils/validation.js:119-141 | the result is the decision; a denial changes nothing; an allowance stores the recent attempts plus now for that identifier only; no list ever exceeds maxAttempts |
| WorkReflectionMatrix.TaskMetrics | src/components/steps/WorkReflectionMatrixStep.js:37-67 | impact = energy × enjoyment; the impact category follows the sign of energy; skill is low/medium/high for <2, 2 and >2; the cell key joins the two |
| WorkReflectionMatrix.AllCellsDistinct | src/components/steps/WorkReflectionMatrixStep.js:112-122 | the matrix has nine distinct cells |
| WorkReflectionMatrix.CellKeyInjective | src/components/steps/WorkReflectionMatrixStep.js:66 | distinct cells have distinct keys |
| WorkReflectionMatrix.CellIndex | src/components/steps/WorkReflectionMatrixStep.js:112-122 | every metrics cell is one of the nine matrix keys |
| WorkReflectionMatrix.NewTask | src/components/steps/WorkReflectionMatrixStep.js:73-80 | a new task carries the draft, the given id and freshly computed metrics |
| WorkReflectionMatrix.Merge | src/components/steps/WorkReflectionMatrixStep.js:95-98 | merging keeps the id and recomputes the metrics; an empty update only refreshes them |
| WorkReflectionMatrix.UpdateTasksKeeps | src/components/steps/WorkReflectionMatrixStep.js:92-102 | updating keeps length, order and ids, changes no other task, and leaves updated tasks with consistent metrics |
| WorkReflectionMatrix.DeleteTasksKeeps | src/components/steps/WorkReflectionMatrixStep.js:104-108 | deletion removes every task with the id and keeps the others in order |
| WorkReflectionMatrix.GetMatrixData | src/components/steps/WorkReflectionMatrixStep.js:111-134 | the bucketing loop builds exactly the specified nine cells |
| WorkReflectionMatrix.FileAllIsMatrix | src/components/steps/WorkReflectionMatrixStep.js:111-134 | filing the tasks one at a time into nine empty cells yields, cell by cell, exactly the tasks of that cell in order and their total time |
| WorkReflectionMatrix.MatrixStep | src/components/steps/WorkReflectionMatrixStep.js:124-131 | adding one task changes only its own cell, by appending it and adding its time |
| WorkReflectionMatrix.CellsPartition | src/components/steps/WorkReflectionMatrixStep.js:111-134 | summing any task weight over the nine cells gives the weight over all tasks |
| WorkReflectionMatrix.MatrixTotals | src/components/steps/WorkReflectionMatrixStep.js:111-134 | cell counts sum to the number of tasks, and cell times sum to the total time |
| WorkReflectionMatrix.TaskInOneCell | src/components/steps/WorkReflectionMatrixStep.js:124-131 | every task lies in exactly one cell |
| WorkReflectionMatrix.TaskBoard.constructor | src/components/steps/WorkReflectionMatrixStep.js:9-18 | the board opens on the saved tasks, not adding |
| WorkReflectionMatrix.TaskBoard.AddTask | src/components/steps/WorkReflectionMatrixStep.js:71-90 | with a named draft, exactly one task is appended and saved and the draft resets; otherwise nothing changes |
| WorkReflectionMatrix.TaskBoard.UpdateTask | src/components/steps/WorkReflectionMatrixStep.js:92-102 | tasks become the specified update and are saved |
| WorkReflectionMatrix.TaskBoard.DeleteTask | src/components/steps/WorkReflectionMatrixStep.js:104-108 | tasks become the specified deletion and are saved |
| CareerDevelopmentApp.EveryIff | src/components/CareerDevelopmentApp.js:258-259 | `every` holds iff each required id is in the completed list |
| CareerDevelopmentApp.StepLockedIff | src/components/CareerDevelopmentApp.js:253-265 | a step is locked iff the mode is not view, the step is the Dream Job step, and some id in 1..6 is missing |
| CareerDevelopmentApp.MarkedProps | src/components/CareerDevelopmentApp.js:222-229 | marking adds the step, keeps the old list as a prefix and adds nothing else; a duplicate-free list stays duplicate-free |
| CareerDevelopmentApp.ProgressWidth | src/components/CareerDevelopmentApp.js:390 | the width lies in 0..100, is 100 iff at least 8 steps are done, and is otherwise count / 8 × 100 |
| CareerDevelopmentApp.ProgressWidthMonotone | src/components/CareerDevelopmentApp.js:390 | more completed steps never narrow the line |
| CareerDevelopmentApp.NextDisabledIff | src/components/CareerDevelopmentApp.js:451 | Next is disabled iff at the last step, or at the Dream Job step while it is locked |
| CareerDevelopmentApp.ReloadAfterNextLocksDreamJob | src/components/CareerDevelopmentApp.js:231-238 | as written, finishing step 6 opens the Dream Job step, but the stored snapshot resumes on it locked |
| CareerDevelopmentApp.StoredAfterNextRestores | src/components/CareerDevelopmentApp.js:231-238 | corrected: the snapshot after Next holds the new step and the completed list including the finished step |
| CareerDevelopmentApp.Wizard.constructor | src/components/CareerDevelopmentApp.js:22-24 | the wizard starts at step 0 with no completed steps |
| CareerDevelopmentApp.Wizard.Save | src/components/CareerDevelopmentApp.js:199-211 | outside view mode, the snapshot is stored; in view mode nothing is stored |
| CareerDevelopmentApp.Wizard.UpdateFormData | src/components/CareerDevelopmentApp.js:213-220 | only the named field changes (every other field keeps its value), and the new data is saved |
| CareerDevelopmentApp.Wizard.MarkStepComplete | src/components/CareerDevelopmentApp.js:222-229 | the step is appended only when absent and the snapshot is saved, so the list stays duplicate-free |
| CareerDevelopmentApp.Wizard.HandleNext | src/components/CareerDevelopmentApp.js:231-238 | the current step is marked; the step advances by one unless it is the last; currentStep stays in 0..8 |
| CareerDevelopmentApp.Wizard.HandlePrevious | src/components/CareerDevelopmentApp.js:240-246 | the step decreases only above 0 |
| CareerDevelopmentApp.Wizard.NavigateToStep | src/components/CareerDevelopmentApp.js:248-251 | jumps to the step and saves |
| CareerDevelopmentApp.Wizard.ClickStep | src/components/CareerDevelopmentApp.js:350 | clicking a locked step changes nothing; otherwise it navigates there |
| EnhancedValuesStep.NarrowTop10KeepsTen | src/components/steps/EnhancedValuesStep.js:135-143 | a duplicate-free list of at least 10 never drops below 10 and stays duplicate-free; a value is in the result iff it was absent or the list had only 10 |
| EnhancedValuesStep.NarrowTop5Bounded | src/components/steps/EnhancedValuesStep.js:152-160 | top5 stays at most 5; deselection always removes; adding to a full list is refused; nothing foreign enters |
| EnhancedValuesStep.DragEndPermutes | src/components/steps/EnhancedValuesStep.js:169-179 | a drag is a permutation of the same ids that puts the dragged id at the target position |
| EnhancedValuesStep.ValuesStep.constructor | src/components/steps/EnhancedValuesStep.js:54-58 | the phase is selection and the lists come from the saved values |
| EnhancedValuesStep.ValuesStep.ToggleValue | src/components/steps/EnhancedValuesStep.js:120-126 | the selection is toggled and nothing else changes |
| EnhancedValuesStep.ValuesStep.ProceedToTop10 | src/components/steps/EnhancedValuesStep.js:128-133 | with at least 10 selected, the phase becomes top10 and top10 is the first 10; otherwise nothing changes |
| EnhancedValuesStep.ValuesStep.NarrowToTop10 | src/components/steps/EnhancedValuesStep.js:135-143 | top10 becomes the narrowed list |
| EnhancedValuesStep.ValuesStep.ProceedToTop5 | src/components/steps/EnhancedValuesStep.js:145-150 | with exactly 10, the phase becomes top5 and top5 is emptied; otherwise nothing changes |
| EnhancedValuesStep.ValuesStep.NarrowToTop5 | src/components/steps/EnhancedValuesStep.js:152-160 | top5 becomes the narrowed list and stays at most 5 |
| EnhancedValuesStep.ValuesStep.ProceedToRanking | src/components/steps/EnhancedValuesStep.js:162-167 | with exactly 5, the phase becomes ranking with rankedTop5 = top5; otherwise nothing changes |
| EnhancedValuesStep.ValuesStep.Back | src/components/steps/EnhancedValuesStep.js:386 | the back buttons go one phase back and change no list |
| EnhancedValuesStep.ValuesStep.HandleDragEnd | src/components/steps/EnhancedValuesStep.js:169-179 | the ranked list becomes the drag result |
| EnhancedValuesStep.ValuesStep.SaveValues | src/components/steps/EnhancedValuesStep.js:181-187 | the saved record has at least 10 values, exactly 10 in top10, and a top5 that is a permutation of the chosen five |
| EnhancedWorkRequirementsStep.ToggleCappedProps | src/components/steps/EnhancedWorkRequirementsStep.js:56-62 | the selection stays at most 10; removal is always allowed; adding appends only below 10 |
| EnhancedWorkRequirementsStep.FindItem | src/components/steps/EnhancedWorkRequirementsStep.js:66 | the catalog lookup finds an item with that id, or none exists |
| EnhancedWorkRequirementsStep.EntriesFrom | src/components/steps/EnhancedWorkRequirementsStep.js:65-76 | one entry per selected id, built from the catalog and the saved entry; it fails iff some id is missing from the catalog |
| EnhancedWorkRequirementsStep.EntryDefaults | src/components/steps/EnhancedWorkRequirementsStep.js:70-74 | rank defaults to index+1 and currentMatch to 3 when the saved value is missing or 0 |
| EnhancedWorkRequirementsStep.RankedOfProps | src/components/steps/EnhancedWorkRequirementsStep.js:64-80 | the ranking holds one entry per selected id, as a permutation of the built entries, sorted ascending by rank |
| EnhancedWorkRequirementsStep.RerankProps | src/components/steps/EnhancedWorkRequirementsStep.js:82-88 | ranks become exactly 1..n in list order, nothing else changes, and reranking is idempotent |
| EnhancedWorkRequirementsStep.UpdateDetailsProps | src/components/steps/EnhancedWorkRequirementsStep.js:90-96 | only the named field of entries with the id changes; ids, ranks, length and order are kept |
| EnhancedWorkRequirementsStep.MatchTotalBounds | src/components/steps/EnhancedWorkRequirementsStep.js:122-125 | with every match in 1..5, the total lies between n and 5n |
| EnhancedWorkRequirementsStep.SatisfactionScoreRange | src/components/steps/EnhancedWorkRequirementsStep.js:121-126 | for a non-empty list with matches in 1..5 the score lies in 20..100, and is 100 when every match is 5 |
| EnhancedWorkRequirementsStep.CardColorProps | src/components/steps/EnhancedWorkRequirementsStep.js:129-138 | gray exactly outside 1..5; distinct scores in 1..5 get distinct colours |
| EnhancedWorkRequirementsStep.RequirementsStep.constructor | src/components/steps/EnhancedWorkRequirementsStep.js:11-22 | the step opens in selection with the saved requirements |
| EnhancedWorkRequirementsStep.RequirementsStep.ToggleRequirement | src/components/steps/EnhancedWorkRequirementsStep.js:56-62 | the selection becomes the capped toggle |
| EnhancedWorkRequirementsStep.RequirementsStep.ProceedToRanking | src/components/steps/EnhancedWorkRequirementsStep.js:64-80 | on success the phase becomes ranking with the built ranking; an unknown id reports the error and changes nothing |
| EnhancedWorkRequirementsStep.RequirementsStep.UpdateRankOrder | src/components/steps/EnhancedWorkRequirementsStep.js:82-88 | the ranking becomes the reranked order |
| EnhancedWorkRequirementsStep.RequirementsStep.BackToSelection | src/components/steps/EnhancedWorkRequirementsStep.js:332 | returns to selection and keeps every list |
| EnhancedWorkRequirementsStep.RequirementsStep.SaveAndProceed | src/components/steps/EnhancedWorkRequirementsStep.js:115-118 | saves the ranking and moves to details |
| EnhancedWorkRequirementsStep.RequirementsStep.UpdateRequirementDetails | src/components/steps/EnhancedWorkRequirementsStep.js:90-96 | the ranking becomes the detail update and is saved |
| EnhancedWorkRequirementsStep.RequirementsStep.BackToRanking | src/components/steps/EnhancedWorkRequirementsStep.js:457 | returns to ranking and keeps every list |
| EnhancedWorkRequirementsStep.RequirementsStep.HandleComplete | src/components/steps/EnhancedWorkRequirementsStep.js:98-113 | saves the ranking and requests completion |
| EnhancedStrengthsStep.HighSkillTasksProps | src/components/steps/EnhancedStrengthsStep.js:18-23 | exactly the tasks with skill ≥ 2 and (skill = 3 or energy > 0) are kept, in order |
| EnhancedStrengthsStep.FindWork | src/components/steps/EnhancedStrengthsStep.js:28 | finds a saved entry with that task id, or none exists |
| EnhancedStrengthsStep.InitialWorkProps | src/components/steps/EnhancedStrengthsStep.js:25-33 | one entry per high-skill task; it reuses the saved strengths for that task, else five blanks |
| EnhancedStrengthsStep.CollectProps | src/components/steps/EnhancedStrengthsStep.js:89-101 | empty strings are dropped from the work and test lists; only friends with a name and a non-empty strength are kept; order is kept |
| EnhancedStrengthsStep.KeysMembership | src/components/steps/EnhancedStrengthsStep.js:107-129 | a key is present iff it is the lower-cased form of a non-empty input |
| EnhancedStrengthsStep.UniqueStrengthsProps | src/components/steps/EnhancedStrengthsStep.js:103-132 | the result is duplicate-free, lower-case and non-empty, holds the lower-cased form of every non-empty input, and is in first-occurrence order |
| EnhancedStrengthsStep.PushLower | src/components/steps/EnhancedStrengthsStep.js:115-120 | the test-strength loop adds exactly the new keys |
| EnhancedStrengthsStep.PushWork | src/components/steps/EnhancedStrengthsStep.js:106-113 | the nested work loop adds exactly the new keys |
| EnhancedStrengthsStep.PushFriends | src/components/steps/EnhancedStrengthsStep.js:122-129 | the nested friend loop adds exactly the new keys |
| EnhancedStrengthsStep.RemoveAtProps | src/components/steps/EnhancedStrengthsStep.js:83-87 | removing index i keeps the elements before it and shifts those after it |
| EnhancedStrengthsStep.TestEditLost | src/components/steps/EnhancedStrengthsStep.js:60-64 | as written, typing a test strength saves the data from before the edit |
| EnhancedStrengthsStep.RemovedFriendStillSaved | src/components/steps/EnhancedStrengthsStep.js:83-87 | as written, removing a friend saves data that still holds that friend |
| EnhancedStrengthsStep.SavedAfterEditsKeepsEdit | src/components/steps/EnhancedStrengthsStep.js:60-87 | corrected: the saved data holds the typed strength and no longer holds the removed friend |
| EnhancedStrengthsStep.StrengthsStep.constructor | src/components/steps/EnhancedStrengthsStep.js:25-45 | work entries come from the high-skill tasks; tests and friends come from the saved data, else blanks |
| EnhancedStrengthsStep.StrengthsStep.UpdateStrengthsData | src/components/steps/EnhancedStrengthsStep.js:89-101 | saves the collected strengths |
| EnhancedStrengthsStep.StrengthsStep.UpdateWorkStrength | src/components/steps/EnhancedStrengthsStep.js:53-58 | writes one slot of one work entry and saves |
| EnhancedStrengthsStep.StrengthsStep.UpdateTestStrength | src/components/steps/EnhancedStrengthsStep.js:60-65 | writes one test slot and saves the updated data |
| EnhancedStrengthsStep.StrengthsStep.UpdateFriendFeedback | src/components/steps/EnhancedStrengthsStep.js:67-77 | 'name' sets only the name, and a slot index sets only that strength, of one friend; then saves |
| EnhancedStrengthsStep.StrengthsStep.AddFriend | src/components/steps/EnhancedStrengthsStep.js:79-81 | appends one blank friend with three empty strengths |
| EnhancedStrengthsStep.StrengthsStep.RemoveFriend | src/components/steps/EnhancedStrengthsStep.js:83-87 | removes only that friend and saves the updated data |
| EnhancedStrengthsStep.StrengthsStep.GetAllUniqueStrengths | src/components/steps/EnhancedStrengthsStep.js:103-132 | the loops return exactly the unique-strength list |
| ComprehensiveSummary.CoreDone | src/components/steps/ComprehensiveSummary.js:139-141 | at most 6 core steps count |
| ComprehensiveSummary.RateOfProps | src/components/steps/ComprehensiveSummary.js:138-143 | the rate of a count in 0..6 lies in 0..100, is 100 iff the count is 6, and grows with the count |
| ComprehensiveSummary.CompletionRateFull | src/components/steps/ComprehensiveSummary.js:138-143 | the rate lies in 0..100 and is 100 iff every step 1..6 is listed |
| ComprehensiveSummary.CoreDoneAll | src/components/steps/ComprehensiveSummary.js:139-141 | all six count iff every step 1..6 is listed |
| ComprehensiveSummary.ListedAll | src/components/steps/ComprehensiveSummary.js:139-141 | all steps count iff each is listed |
| ComprehensiveSummary.CompletionRateMonotone | src/components/steps/ComprehensiveSummary.js:138-143 | the rate depends only on which of 1..6 are listed, so duplicates and extra ids never raise it |
| ComprehensiveSummary.CompletedSectionsProps | src/components/steps/ComprehensiveSummary.js:366 | the displayed count lies in 0..8, and for a duplicate-free list it is the number of ids in 1..8 |
| ComprehensiveSummary.TopProblemsProps | src/components/steps/ComprehensiveSummary.js:146-156 | at most 3 summaries, each the summary of one of the problems with problem and root cause non-empty; they are the first analysed problems in original order, and there are 3 whenever 3 are analysed |
| ComprehensiveSummary.EnergyBalanceSums | src/components/steps/ComprehensiveSummary.js:159-166 | the energising, draining and neutral counts sum to the total |
| ComprehensiveSummary.TopRequirementsProps | src/components/steps/ComprehensiveSummary.js:169-178 | the first min(n, 5) requirements with importance = rank and gap = 5 − currentMatch |
| ComprehensiveSummary.AllStrengthsProps | src/components/steps/ComprehensiveSummary.js:200-217 | the result is duplicate-free, holds exactly the non-empty strengths, and keeps work → tests → friends order |
| ComprehensiveSummary.AddFilled | src/components/steps/ComprehensiveSummary.js:208-209 | the test loop adds exactly the new non-empty strengths |
| ComprehensiveSummary.AddWork | src/components/steps/ComprehensiveSummary.js:203-206 | the nested work loop adds exactly the new non-empty strengths |
| ComprehensiveSummary.AddFriends | src/components/steps/ComprehensiveSummary.js:211-214 | the nested friend loop adds exactly the new non-empty strengths |
| ComprehensiveSummary.GetAllStrengths | src/components/steps/ComprehensiveSummary.js:200-217 | the Set-building loops return exactly the specified list |
| ComprehensiveSummary.DreamJobInsightsProps | src/components/steps/ComprehensiveSummary.js:220-230 | topCategories are exactly the categories rated ≥ 4, as a stable sort by descending rating; hasVision iff some vision field is non-empty |
| ComprehensiveSummary.CareerArchetypeProps | src/components/steps/ComprehensiveSummary.js:77 | the career archetype is the first selected one, or none when none is selected |
| ComprehensiveSummary.ReduceWithObject | src/components/steps/ComprehensiveSummary.js:78 | once an object has been added, the reduce total is a concatenated string |
| ComprehensiveSummary.LifeBalanceNaN | src/components/steps/ComprehensiveSummary.js:78 | as written, any wheel holding an object among its values, such as the justifications object, yields NaN |
| ComprehensiveSummary.NewAssessmentWheelScore | src/components/CareerDevelopmentApp.js:174-183 | as written, the wheel a new assessment starts from (eight zeros, no justifications) yields 0, the area average |
| ComprehensiveSummary.JustifiedWheelNaN | src/components/steps/EnhancedWheelOfLifeStep.js:130-140 | as written, once one justification has been typed on that wheel, the score is NaN where the area average is 0 |
| ComprehensiveSummary.LifeBalanceScoreRange | src/components/steps/ComprehensiveSummary.js:78 | corrected: with area scores in -3..3, the score is a number in -3..3 |
| EnhancedFiveWhyStep.NewProblemBlank | src/components/steps/EnhancedFiveWhyStep.js:22-30 | a new problem has category 'work', five empty whys and empty text fields |
| EnhancedFiveWhyStep.WithFieldProps | src/components/steps/EnhancedFiveWhyStep.js:41-42 | setting a field changes that field only |
| EnhancedFiveWhyStep.UpdateProblemsProps | src/components/steps/EnhancedFiveWhyStep.js:39-45 | only problems with the id change, and only in that field |
| EnhancedFiveWhyStep.UpdateWhysProps | src/components/steps/EnhancedFiveWhyStep.js:47-58 | only whys[i] of the matching problem changes; the whys length is kept |
| EnhancedFiveWhyStep.DeleteProblemsProps | src/components/steps/EnhancedFiveWhyStep.js:60-64 | every problem with the id is removed, the rest stay in order, and an absent id changes nothing |
| EnhancedFiveWhyStep.CategoryColorProps | src/components/steps/EnhancedFiveWhyStep.js:71-74 | a listed category gets its own colour; gray iff the id is unknown |
| EnhancedFiveWhyStep.FiveWhyStep.constructor | src/components/steps/EnhancedFiveWhyStep.js:10-12 | the step opens on the saved problems, collapsed |
| EnhancedFiveWhyStep.FiveWhyStep.AddProblem | src/components/steps/EnhancedFiveWhyStep.js:32-37 | appends exactly one new problem, expands it, and persists nothing |
| EnhancedFiveWhyStep.FiveWhyStep.UpdateProblem | src/components/steps/EnhancedFiveWhyStep.js:39-45 | problems become the field update and are saved |
| EnhancedFiveWhyStep.FiveWhyStep.UpdateWhy | src/components/steps/EnhancedFiveWhyStep.js:47-58 | problems become the why update and are saved |
| EnhancedFiveWhyStep.FiveWhyStep.DeleteProblem | src/components/steps/EnhancedFiveWhyStep.js:60-64 | problems become the deletion and are saved |
| EnhancedWheelOfLifeStep.CriticalCategoriesProps | src/components/steps/EnhancedWheelOfLifeStep.js:194-196 | critical areas are exactly those scored ≤ −1, in category order |
| EnhancedWheelOfLifeStep.CriticalAfterScore | src/components/steps/EnhancedWheelOfLifeStep.js:121-128 | after setting a score, that area is critical iff the score is ≤ −1, and no other area changes status |
| EnhancedWheelOfLifeStep.StrongestIsFirstMax | src/components/steps/EnhancedWheelOfLifeStep.js:406-408 | the strongest area has the maximal score, and every earlier area scores strictly less |
| EnhancedWheelOfLifeStep.PositiveCountProps | src/components/steps/EnhancedWheelOfLifeStep.js:411 | the positive count is at most 8, and is 8 iff every area is above 0 |
| EnhancedWheelOfLifeStep.ChartRoundTrip | src/components/steps/EnhancedWheelOfLifeStep.js:144 | every score in −3..3 maps into 0..10, and the tooltip maps it back |
| EnhancedWheelOfLifeStep.WheelStep.constructor | src/components/steps/EnhancedWheelOfLifeStep.js:29-39 | the step opens on the saved wheel, else on every area at 0 with no justifications |
| EnhancedWheelOfLifeStep.WheelStep.UpdateCategory | src/components/steps/EnhancedWheelOfLifeStep.js:121-128 | only that area's score changes; justifications are kept; the wheel is saved |
| EnhancedWheelOfLifeStep.WheelStep.UpdateJustification | src/components/steps/EnhancedWheelOfLifeStep.js:130-140 | only that justification changes; all scores are kept; the wheel is saved |
| DashboardPage.TopArchetypeMissing | src/components/pages/DashboardPage.js:79-81 | 'Not determined' when the selection is missing or empty |
| DashboardPage.TopArchetypeFirst | src/components/pages/DashboardPage.js:82-89 | the first entry if it is a string, its name if it is an object with a name, else 'Not determined' |
| DashboardPage.SectionDoneIff | src/components/pages/DashboardPage.js:110-116 | a section counts iff it is a non-empty array or an object with at least one key |
| DashboardPage.BlankObjectCounts | src/components/pages/DashboardPage.js:110-116 | an object whose only list is empty still counts as done |
| DashboardPage.CompletedIn | src/components/pages/DashboardPage.js:108-117 | at most one count per section |
| DashboardPage.CountCompleted | src/components/pages/DashboardPage.js:108-117 | the `completed++` loop counts exactly the done sections |
| DashboardPage.GetAssessmentProgress | src/components/pages/DashboardPage.js:96-120 | the method returns the specified percentage |
| DashboardPage.PercentageProps | src/components/pages/DashboardPage.js:118-119 | the percentage lies in 0..100, is 100 iff all 7 sections are done, and grows with the count |
| DashboardPage.CompletedAll | src/components/pages/DashboardPage.js:108-117 | all sections count iff each is done |
| DashboardPage.ProgressRange | src/components/pages/DashboardPage.js:96-120 | the progress lies in 0..100, is 0 for missing data, and is 100 iff every section is done |
| DashboardPage.ProgressMonotone | src/components/pages/DashboardPage.js:96-120 | completing more sections never lowers the progress |
| OverviewPage.WheelAverageIgnoresNonNumbers | src/components/steps/OverviewPage.js:89-95 | non-numeric fields, such as the justifications object, do not change the average |
| OverviewPage.WheelAverageRange | src/components/steps/OverviewPage.js:89-95 | for scores in −3..3 the result lies in 0..10, and it is 0 without a wheel or numeric fields |
| OverviewPage.CountAllStrengthsCountsEntries | src/components/steps/OverviewPage.js:97-102 | entries are counted, not strings: a friend with three strengths adds 1 |
| OverviewPage.SlicesProps | src/components/steps/OverviewPage.js:114-124 | the first min(n, 3) problems and min(n, 5) requirements, in order |
| OverviewPage.CompletionPercentageProps | src/components/steps/OverviewPage.js:178 | the percentage lies in 0..100, is 100 iff the count is 8, and grows with the count |
| SignupPage.ValidateFormFirstFailure | src/components/auth/SignupPage.js:31-49 | the form passes iff no check fails; otherwise the reported check fails and every earlier check passes |
| SignupPage.PasswordStrengthProps | src/components/auth/SignupPage.js:112-121 | score 0 iff empty, below 2 iff shorter than 6, 4 iff at least 8 characters and mixed case with a digit, 3 otherwise at that length |
| SignupPage.AcceptedPasswordNotShort | src/components/auth/SignupPage.js:40 | an accepted form's password has strength ≥ 2, and the confirmation shows the same strength |
| SignupPage.SplitAtFirstSpace | src/components/auth/SignupPage.js:58-59 | splitting at spaces and joining the tail back gives the text before and after the first space |
| SignupPage.SplitNameRoundTrip | src/components/auth/SignupPage.js:58-59 | the first name is the trimmed name up to its first space; first + ' ' + last is the trimmed name; a name without a space is all first name |
| SignupPage.AcceptedNameHasFirst | src/components/auth/SignupPage.js:31-59 | an accepted form always yields a non-empty first name |
| CappedSelection.CappedToggleProps | src/components/steps/ValuesStep.js:13-22 | a committed list is within the cap; a new item is appended iff below the cap; a removal keeps the order |
| CappedSelection.DeselectWithinCap | src/components/steps/ValuesStep.js:14-20 | within the cap, clicking a selected item always removes it |
| CappedSelection.CappedToggleKeeps | src/components/steps/ValuesStep.js:14-16 | a duplicate-free selection stays duplicate-free |
| CappedSelection.OverCapIsStuck | src/components/steps/ValuesStep.js:18 | a duplicate-free selection at least two over the cap can never change |
| ValuesStep.ValuesSelection.constructor | src/components/steps/ValuesStep.js:11 | the step opens on the saved values, or none |
| ValuesStep.ValuesSelection.ToggleValue | src/components/steps/ValuesStep.js:13-22 | the toggled list is committed and saved only within 5; the cap is kept; a selected value is always removed; an unselected value at the cap changes nothing |
| WorkRequirementsStep.RequirementsSelection.constructor | src/components/steps/WorkRequirementsStep.js:22-24 | the step opens on the saved requirements, or none |
| WorkRequirementsStep.RequirementsSelection.ToggleRequirement | src/components/steps/WorkRequirementsStep.js:26-35 | the same, with a cap of 10 |
| StrengthsStep.InitialStrengthsProps | src/components/steps/StrengthsStep.js:5-9 | five blanks for no saved strengths; up to five saved come first, padded to exactly five; more than five throw a RangeError |
| StrengthsStep.SavedStrengthsProps | src/components/steps/StrengthsStep.js:15 | the saved list holds exactly the non-empty slots, in slot order |
| StrengthsStep.ReopenCompacts | src/components/steps/StrengthsStep.js:5-15 | reopening on what was saved moves the filled slots to the front |
| StrengthsStep.StrengthSlots.constructor | src/components/steps/StrengthsStep.js:5-9 | the step opens on the padded slots |
| StrengthsStep.StrengthSlots.UpdateStrength | src/components/steps/StrengthsStep.js:11-16 | only slot i changes, and the non-empty slots are saved in order |
| Sorting.SortDescSorted | src/components/steps/DreamJobDiscoveryStep.js:289 | the sort yields a non-increasing permutation |
| Sorting.SortDescStable | src/components/steps/DreamJobDiscoveryStep.js:289 | elements with equal keys keep their input order |
| Lists.ToggleTwiceAbsent | src/components/steps/EnhancedValuesStep.js:120-126 | toggling an absent id twice restores the list |
| Lists.MovePermutes | src/components/steps/EnhancedValuesStep.js:175 | `arrayMove` (remove at the old index, insert at the new one) is a permutation |
| JsMath.RoundBounds | src/components/steps/ComprehensiveSummary.js:140 | `Math.round` stays within integer bounds of its argument |
| JsText.JoinSplit | src/components/auth/SignupPage.js:58-59 | joining a split with its separator restores the text |

## Left out

- Rendering, animation, routing, drag-and-drop plumbing and the Chart.js radar data (`getWheelData`, `getChartData` apart from the score mapping) are presentation only.
- Authentication, `register` and the social logins are calls into code this model cannot see. Firebase, localStorage saving and loading, `JSON.parse`, export and print are I/O. The save timeout in the summary is a timer.
- Clock and random values (`Date.now()` ids, `new Date()` stamps, `now` in the rate limiter) are method parameters.
- Arithmetic is exact. The source uses doubles, which may differ at .5 rounding boundaries. `toFixed` formatting and the SVG dash offsets are not modelled.
- The career-path and job-category display catalogs are left out. The archetype table keeps only ids and keyword lists, without icons, colours or descriptions.
- `toggleTheme`, `updateCategoryRating`, `updateVision` and `saveThemes` of the Dream Job step are left out: they only copy input into `formData.dreamJob`.
- `Object.keys` and `Object.values` order is taken as insertion order. Integer-like keys, which JavaScript lists first, are not reordered.
- `toLowerCase`, `\s` and the character classes cover ASCII (plus the JavaScript white-space set for `trim`). There is no Unicode case folding. Lengths count UTF-16 code units as characters, with no surrogate pairs.
- EnhancedStrengthsStep.StrengthsStep.UpdateTestStrength and EnhancedStrengthsStep.StrengthsStep.RemoveFriend save the updated data. As written, the source saves the data from before the edit (see Findings).
- CareerDevelopmentApp.Wizard.HandleNext stores the snapshot that includes the finished step. As written, the source stores the older list (see Findings).
- React batching, stale closures and the aliasing of nested arrays are not modelled. `updateWorkStrength` writes into a shared nested array in place; the model replaces the entry by value. Each handler is one sequential transition.
- EnhancedFiveWhyStep.FiveWhyStep.UpdateWhy requires the why index in range. Writing past the end would grow the JavaScript array with holes.
- EnhancedValuesStep.ValuesStep.HandleDragEnd requires both ids in the ranked list, as the drag library guarantees. `NarrowToTop10` and `NarrowToTop5` require ids offered on screen.
- EnhancedWorkRequirementsStep.RequirementsStep.ProceedToRanking requires a non-empty selection (the button is disabled otherwise). An id missing from the catalog is reported as an error, where the source would throw a TypeError.
- StrengthsStep.StrengthSlots.constructor requires the `Ok` case of `InitialStrengths`. The error case, a thrown `RangeError`, is modelled by `InitialStrengths` itself. Saved strengths are taken as a list of strings. An object, as the enhanced step saves it, has no `length`, so the simple step would start from five blanks.
- ComprehensiveSummary.LifeBalanceNaN models the wheel's values as numbers and objects only: the eight area scores, and the justifications object that the wheel step adds once a justification is typed.
- Validation.CleanValues keeps an object entry only when its `length` is a positive number or `true`. JavaScript's `>` would also convert a `length` that is a numeric string ("5") or an array ([5]) to a number and keep the entry; `KeepValue` drops it, because JavaScript's string-to-number conversion is not modelled.
- WorkReflectionMatrix.Merge takes the update fields as options. A spread that overrides `id` is not modelled.
- The summary's other display fields (`completedStepsCount`, timestamps) and the legacy copy-only steps are not modelled.

## Findings

| source | as written | input that shows it | evidently intended | confidence | as-written member | corrected member |
|---|---|---|---|---|---|---|
| src/utils/validation.js:53-54 | one pass of each `replace` | "jajavascript:vascript:" becomes "javascript:", also as a work-task name in a validated record | no `javascript:` or `on…=` left in the output | high, not executed | Validation.SanitizeLeavesProtocol | Validation.SanitizeText |
| src/components/CareerDevelopmentApp.js:231-238 | the second save uses the completed list from before `markStepComplete` | Next on step 6 with steps 1..5 done stores step 7 without step 6; resuming shows the Dream Job step locked | the stored list includes the step just finished | high, not executed | CareerDevelopmentApp.ReloadAfterNextLocksDreamJob | CareerDevelopmentApp.StoredAfterNextRestores |
| src/components/steps/EnhancedStrengthsStep.js:60-64 | `updateStrengthsData` reads the test list from before the edit | typing "Focus" into an empty test slot saves no test strengths | the typed strength is saved | high, not executed | EnhancedStrengthsStep.TestEditLost | EnhancedStrengthsStep.SavedAfterEditsKeepsEdit |
| src/components/steps/EnhancedStrengthsStep.js:83-87 | `updateStrengthsData` reads the friend list from before the removal | removing friend "Ana" (strength "Calm") still saves her | the removed friend is no longer saved | high, not executed | EnhancedStrengthsStep.RemovedFriendStillSaved | EnhancedStrengthsStep.SavedAfterEditsKeepsEdit |
| src/components/steps/ComprehensiveSummary.js:78 | `reduce((a, b) => a + b, 0)` over every wheel value, including the justifications object | a new assessment's wheel (eight zeros) on which one justification has been typed gives NaN | the mean of the eight area scores, to one decimal | high, not executed | ComprehensiveSummary.JustifiedWheelNaN | ComprehensiveSummary.LifeBalanceScoreRange |
