# Task board and recipe browser — a verified model of the core

The application is a small Next.js task board with a bonus recipe browser.
This Dafny project models the parts of it that are plain logic:

- the in-memory task store (a task list and a filter record, replaced by
  add, update, delete, status-change and filter actions, plus the filtered
  and per-status views);
- the recipe normaliser, which flattens twenty optional ingredient/measure
  slots into an ordered ingredient list, and the control flow of the three
  recipe queries, with each HTTP outcome passed in as data;
- the utilities: priority weights, the two copy-then-sort functions,
  truncation, `slugify` and the e-mail pattern;
- the three zod schemas, as validation functions that return the accepted
  record or the exact list of broken rules;
- the decision rules of the filter bar (toggles, search, clear, the sort
  selector and the active-filter badge) and of the board (columns, drag
  start, drop rule, create).

Layout, one module per source file plus three helper modules:

| file | module | models |
|---|---|---|
| wrappers.dfy | `Wrappers` | `Option`, `Result` |
| seqs.dfy | `Seqs` | `Filter`/`Map` (JavaScript's `filter`/`map`), subsequences, and their lemmas |
| jsstring.dfy | `JsString` | `trim` (ECMAScript white space and line terminators), ASCII `toLowerCase`, `includes` |
| types.dfy | `Types` | src/lib/types.ts |
| taskstore.dfy | `TaskStore` | src/app/store/taskStore.ts: class `Store` and the functions its actions are proved against |
| recipes.dfy | `Recipes` | src/app/hooks/useRecipes.ts |
| utils.dfy | `Utils` | src/lib/utils.ts |
| validations.dfy | `Validations` | src/lib/validations.ts |
| taskfilters.dfy | `TaskFiltersUi` | src/components/task/TaskFilters.tsx: class `FilterPanel` |
| taskboard.dfy | `TaskBoardUi` | src/components/task/TaskBoard.tsx: class `Board` |

Parameters:

- Each clock reading and each fresh id is a parameter. Examples are
  `new Date().toISOString()`, `uuidv4()`, and the date two days ahead that
  the seed data uses.
- The network is an oracle `api: Query -> FetchResult`. For each query it
  says whether the request (or its JSON decoding) threw, whether the
  response was not ok, or which body arrived.
- Date parsing is an oracle `parse: string -> Option<int>` (None for an
  invalid date), and "now" is an integer. The due-date sort keys dates by an
  oracle `time: string -> int`.

The store's mutating actions are methods of class `Store`. Each method is
specified by a pure function of the old state (`UpdateById`, `DeleteById`,
`SetStatusById`, `MergeFilters`), and the lemmas about those functions
carry the properties. `getFilteredTasks` keeps the source's three guarded
filter steps; `FilteredTasks`, a one-pass filter, is its specification.
`processRecipe` and `fetchAllRecipes` keep their loops. Their invariants tie
the accumulated list to the declarative `Processed` and `Gathered`.

## Model

| member | source | states |
|---|---|---|
| Types.ParseStatus | src/lib/types.ts:62 | a string parses to a status exactly when it is that status's name; otherwise no status has that name |
| Types.ParsePriority | src/lib/types.ts:63 | a string parses to a priority exactly when it is that priority's name; otherwise no priority has that name |
| Types.StatusesExactlyThree | src/lib/types.ts:62 | there are exactly three statuses, with distinct names, and each parses back from its name |
| Types.PrioritiesExactlyThree | src/lib/types.ts:63 | there are exactly three priorities, with distinct names, and each parses back from its name |
| JsString.TrimStart | src/app/hooks/useRecipes.ts:17 | the result is a suffix that starts with a non-white-space character; everything cut off is white space |
| JsString.TrimEnd | src/app/hooks/useRecipes.ts:17 | the result is a prefix that ends with a non-white-space character; everything cut off is white space |
| JsString.Trim | src/app/hooks/useRecipes.ts:17 | `trim` is no longer than its input and neither starts nor ends with white space |
| JsString.TrimIsSlice | src/app/hooks/useRecipes.ts:17-20 | `trim` returns a contiguous slice of the input, with only white space cut on either side |
| JsString.TrimOfNoWhitespace | src/lib/utils.ts:68 | trimming a string without white space returns it unchanged |
| JsString.TrimEmptyIff | src/app/hooks/useRecipes.ts:64 | a string trims to "" exactly when every character is white space |
| JsString.Lower | src/app/store/taskStore.ts:144-149 | lower-casing keeps the length and maps each character on its own (A–Z to a–z, the rest unchanged) |
| JsString.LowerIdempotent | src/app/store/taskStore.ts:144-149 | lower-casing twice is lower-casing once |
| TaskStore.InitialTasks | src/app/store/taskStore.ts:23-66 | four seed tasks, with the four generated ids in order; task i has clock readings 2i and 2i+1 as createdAt and updatedAt; only the second task has a due date, the date two days ahead |
| TaskStore.SeedColumns | src/app/store/taskStore.ts:23-66 | unfiltered, the seed board shows tasks 3 and 4 in To Do, task 2 in In Progress and task 1 in Done |
| TaskStore.Store.constructor | src/app/store/taskStore.ts:68-72 | the store starts with the seed tasks, no filters, not loading and no error |
| TaskStore.Store.AddTask | src/app/store/taskStore.ts:74-86 | exactly one task is appended at the end and the earlier tasks are kept in order; the new task has the fresh id, the form fields and two clock readings; `error` is cleared; the filters are kept |
| TaskStore.AddedTaskShownOnce | src/app/store/taskStore.ts:74-86 | a task added with a fresh id appears exactly once in an unfiltered view |
| TaskStore.ApplyPatch | src/app/store/taskStore.ts:91-93 | id and createdAt are kept; updatedAt is the new clock reading; every field present in the patch is overwritten (even with `undefined`), and every other field is kept |
| TaskStore.ApplyPatchIdempotent | src/app/store/taskStore.ts:91-93 | applying a patch again only moves the timestamp |
| TaskStore.UpdateById | src/app/store/taskStore.ts:88-97 | length is kept; only tasks with the id are patched, and the others are unchanged |
| TaskStore.UpdateKeepsIds | src/app/store/taskStore.ts:88-97 | the id sequence, and so the order, is unchanged; an unknown id leaves the list equal to before |
| TaskStore.Store.UpdateTask | src/app/store/taskStore.ts:88-97 | the new list is `UpdateById` of the old one; `error` is cleared; the filters are kept |
| TaskStore.DeleteById | src/app/store/taskStore.ts:99-104 | the result is a subsequence of the list; no task with the id remains; every task with another id remains, as many times as it occurred |
| TaskStore.DeleteIdempotent | src/app/store/taskStore.ts:99-104 | deleting twice is deleting once; deleting an unknown id changes nothing |
| TaskStore.Store.DeleteTask | src/app/store/taskStore.ts:99-104 | the new list is `DeleteById` of the old one; `error` is cleared; the filters are kept |
| TaskStore.SetStatusById | src/app/store/taskStore.ts:106-115 | length is kept; tasks with the id get the new status and timestamp; the others are unchanged |
| TaskStore.SetStatusOnlyStatusAndTime | src/app/store/taskStore.ts:106-115 | only status and updatedAt differ from before; matching tasks end with the requested status, even when it was already theirs; repeating the call only moves the timestamp |
| TaskStore.Store.UpdateTaskStatus | src/app/store/taskStore.ts:106-115 | the new list is `SetStatusById` of the old one; `error` is cleared; the filters are kept |
| TaskStore.MergeFilters | src/app/store/taskStore.ts:117-121 | each filter key present in the patch is overwritten, even by `undefined`; absent keys are kept |
| TaskStore.MergeFiltersIdempotent | src/app/store/taskStore.ts:117-121 | merging the same patch twice is merging it once; merging `{}` changes nothing |
| TaskStore.Store.SetFilters | src/app/store/taskStore.ts:117-121 | the filters become `MergeFilters` of the old ones; tasks and `error` are untouched |
| TaskStore.Store.ClearFilters | src/app/store/taskStore.ts:123-125 | the filters become `{}`; tasks and `error` are untouched |
| TaskStore.FilteredTasks | src/app/store/taskStore.ts:127-154 | the view is a subsequence of the tasks, in their order; a task is in it exactly when it meets the status, priority and search constraints, and then as many times as it occurs in the list |
| TaskStore.NoConstraintsShowsAll | src/app/store/taskStore.ts:131-151 | with absent or empty lists and an absent or empty search, the view is the whole list |
| TaskStore.Store.GetFilteredTasks | src/app/store/taskStore.ts:127-154 | the three guarded filter steps (status 131-135, priority 137-141, lower-cased search 143-151) compute exactly the one-pass view |
| TaskStore.TasksByStatus | src/app/store/taskStore.ts:156-159 | a column is a subsequence of the filtered view, and all its tasks have that status and meet the filters |
| TaskStore.ColumnHoldsMatching | src/app/store/taskStore.ts:156-159 | every task that meets the filters and has status s is in column s |
| TaskStore.ColumnsPartitionFiltered | src/app/store/taskStore.ts:156-159 | the three columns together hold the filtered view, each task exactly once (a multiset identity) |
| TaskStore.Store.GetTasksByStatus | src/app/store/taskStore.ts:156-159 | returns the column of the current tasks and filters |
| Recipes.SlotsOf | src/lib/types.ts:1-46 | a raw recipe has exactly twenty slots; slot k (1-based) pairs `strIngredientk` with `strMeasurek` |
| Recipes.ProcessRecipe | src/app/hooks/useRecipes.ts:9-32 | the loop over indices 1..20 builds exactly `Processed(recipe)`: the entries of the yielding slots, in ascending index order, and the four copied fields |
| Recipes.KeptSlotsExact | src/app/hooks/useRecipes.ts:17 | a slot is kept exactly when its ingredient is present and not blank after trimming; the kept slots are a subsequence of all slots |
| Recipes.KeptSlotsAscending | src/app/hooks/useRecipes.ts:13-23 | kept slots come in strictly ascending slot order |
| Recipes.ProcessedEntries | src/app/hooks/useRecipes.ts:17-30 | at most 20 entries; entry k comes from kept slot k; its name is the trimmed ingredient and is not blank; its measure is the trimmed measure, or "" if absent; id, name, instructions and image are copied from idMeal, strMeal, strInstructions and strMealThumb |
| Recipes.DuplicatesKept | src/app/hooks/useRecipes.ts:17-21 | two yielding slots with the same ingredient both produce an entry; nothing is de-duplicated |
| Recipes.GatheredConcat | src/app/hooks/useRecipes.ts:39-55 | the sample for a concatenation of letter lists is the concatenation of their samples |
| Recipes.FailedLetterSkipped | src/app/hooks/useRecipes.ts:40-54 | a letter whose request threw, was not ok, or had null meals contributes nothing; the sample is what the other letters give |
| Recipes.GatheredFromOkLetters | src/app/hooks/useRecipes.ts:44-51 | every sampled recipe is the processed form of a meal that some ok letter returned |
| Recipes.GatheredSnoc | src/app/hooks/useRecipes.ts:39-55 | one more letter appends its own contribution at the end |
| Recipes.FetchAllRecipes | src/app/hooks/useRecipes.ts:35-58 | letters a–e in order; the result is `Gathered(Letters, api)`; the call never fails |
| Recipes.SearchRecipes | src/app/hooks/useRecipes.ts:61-85 | a blank term returns exactly the sample; otherwise one request: thrown gives the error re-raised; not ok gives "Failed to fetch recipes"; null meals gives []; a body gives each meal processed, in order |
| Recipes.LookupRecipe | src/app/hooks/useRecipes.ts:112-128 | thrown gives the error re-raised; not ok gives "Failed to fetch recipe"; null or empty meals gives null; otherwise the first meal, processed |
| Utils.PriorityWeight | src/lib/utils.ts:32-35 | the weight is in 0..3; 3 exactly for "High", 2 exactly for "Medium", 1 exactly for "Low", and 0 for every other string |
| Utils.WeightsOrderPriorities | src/lib/utils.ts:32-35 | weights are positive and distinct across priorities, and Low < Medium < High |
| Utils.PriorityWeightAsWritten | src/lib/utils.ts:32-35 | the object lookup with `\|\| 0`: whenever it yields a number, that number is the intended weight |
| Utils.ConstructorWeightIsFunction | src/lib/utils.ts:33-34 | for "constructor" the lookup yields a function, not a number |
| Utils.WeightAsWrittenAgrees | src/lib/utils.ts:33-34 | for every key that is not an inherited `Object.prototype` member, the lookup as written yields the intended weight |
| Utils.InsertSorted | src/lib/utils.ts:40 | inserting into a sorted sequence keeps it sorted |
| Utils.SortBy | src/lib/utils.ts:40 | the copy-then-sort is sorted by the rank and is a permutation of its input |
| Utils.InsertStable | src/lib/utils.ts:40 | insertion keeps elements of one rank in their order |
| Utils.SortByStable | src/lib/utils.ts:40-48 | elements picked out by a predicate that holds within one rank keep their input order |
| Utils.PriorityCompare | src/lib/utils.ts:41 | the comparator is negative exactly when a weighs more than b, and zero exactly when the weights are equal |
| Utils.PriorityCompareAgrees | src/lib/utils.ts:41 | the comparator `weight(b) - weight(a)` has the sign of the rank order |
| Utils.SortTasksByPriority | src/lib/utils.ts:37-43 | for any record type with a priority string, the result is a permutation of the input, with non-increasing weight, so records with an unknown priority come last; the input is a value, so it is not modified |
| Utils.SortTasksByPriorityStable | src/lib/utils.ts:37-43 | records of one weight, and records of one priority string, keep their input order |
| Utils.SortTasksByPriorityGroups | src/lib/utils.ts:37-43 | on the board's tasks the result lists all High tasks, then all Medium, then all Low |
| Utils.DueDateCompare | src/lib/utils.ts:48-53 | negative exactly when a is dated and b is undated or later; zero exactly when both are undated or both have one time |
| Utils.DueDateCompareAgrees | src/lib/utils.ts:48-53 | the comparator (both undated: 0; a undated: 1; b undated: -1; else the time difference) has the sign of the rank order |
| Utils.SortTasksByDueDate | src/lib/utils.ts:45-54 | for any record type with an optional due date, the result is a permutation; every dated record comes before every undated one; dated records are in non-decreasing time |
| Utils.SortTasksByDueDateStable | src/lib/utils.ts:45-54 | undated tasks, and dated tasks with one time, keep their input order |
| Utils.TruncateString | src/lib/utils.ts:57-60 | input no longer than maxLength (default 100) is returned as is; otherwise the first maxLength characters followed by "..." |
| Utils.TruncateIdempotent | src/lib/utils.ts:57-60 | truncating twice is truncating once, and the result is at most maxLength + 3 long |
| Utils.CollapseRuns | src/lib/utils.ts:66-67 | replacing runs: the result is no longer than the input, empty exactly when the input is, and starts with the replacement or the unchanged first character |
| Utils.CollapseNoDoubled | src/lib/utils.ts:66-67 | after replacing each run by one matching character, no two matching characters are adjacent |
| Utils.CollapseKeeps | src/lib/utils.ts:66-67 | if every character matches the run pattern or a property that the replacement has, the result has only characters with that property |
| Utils.CollapseNone | src/lib/utils.ts:66-67 | a string with no matching character is unchanged |
| Utils.CollapseSingles | src/lib/utils.ts:67 | a string whose matches are single replacement characters is unchanged |
| Utils.SlugStepsShape | src/lib/utils.ts:63-67 | after lower-casing and the three replacements, only a–z, 0–9 and '-' remain, with no "--" |
| Utils.Slugify | src/lib/utils.ts:62-69 | the slug has only a–z, 0–9 and '-', and never two consecutive '-' |
| Utils.SlugifyTrimIsNoop | src/lib/utils.ts:68 | the final `trim` never changes anything, because no white space survives the replacements |
| Utils.SlugStepsKeepSlug | src/lib/utils.ts:63-67 | the replacements leave an existing slug unchanged |
| Utils.SlugifyIdempotent | src/lib/utils.ts:62-69 | slugifying a slug returns it unchanged |
| Utils.IsValidEmail | src/lib/utils.ts:72-75 | a matching address has at least five characters and neither starts nor ends with '@', nor starts with white space |
| Utils.EmailRegexIsShape | src/lib/utils.ts:72-75 | the pattern matches exactly when the string has no white space, exactly one '@' with something before it, and a '.' after the '@' that is neither the domain's first nor its last character |
| Validations.FormDueImpliesSchemaDue | src/lib/validations.ts:15-43 | every due date the form accepts is also accepted by the task schema |
| Validations.PastDateOnlyInSchema | src/lib/validations.ts:15-43 | a valid past date is accepted by the task schema but refused by the form |
| Validations.CustomMessagesDistinct | src/lib/validations.ts:10-43 | the four custom messages (title required, title too long, invalid date format, due date not in the future) are pairwise different, so each names one rule |
| Validations.FormIssues | src/lib/validations.ts:28-45 | an issue is reported exactly when its rule is broken |
| Validations.ValidateForm | src/lib/validations.ts:28-45 | accepted exactly when: 1 ≤ title length ≤ 100 (exactly 100 is allowed); the status and priority are enum members; the due date is absent, "", or a valid date ≥ now. On acceptance the fields are copied; on refusal the non-empty issue list names exactly the broken rules |
| Validations.TaskIssues | src/lib/validations.ts:6-26 | an issue is reported exactly when its rule is broken |
| Validations.ValidateTask | src/lib/validations.ts:6-26 | accepted exactly when: the id is UUID-shaped; the title bounds and enum memberships hold; the due date is absent, "", or a valid date. The accepted task reads back as its input; on refusal the issue list names exactly the broken rules |
| Validations.AcceptedFormMakesValidTask | src/lib/validations.ts:6-45 | form values that pass the form schema, completed with a UUID and timestamps, pass the task schema |
| Validations.ParseAll | src/lib/validations.ts:48-49 | a list parses exactly when each element does, element by element |
| Validations.ValidateFilters | src/lib/validations.ts:47-51 | accepted exactly when the present status and priority lists hold only enum values; an accepted record maps back to its input, lists and search alike; on refusal the issues are exactly the bad lists, and no other issue is reported |
| Validations.FiltersRoundTrip | src/lib/validations.ts:47-51 | every filter record, written out as raw strings, validates back to itself |
| TaskFiltersUi.Toggle | src/components/task/TaskFilters.tsx:40-48 | never leaves an empty list (it becomes absent); a selected value is removed everywhere and every other element is kept, in order and with its repeats; an unselected value is appended at the end |
| TaskFiltersUi.ToggleKeepsOthers | src/components/task/TaskFilters.tsx:42-44 | every other selected value survives a toggle |
| TaskFiltersUi.ToggleTwice | src/components/task/TaskFilters.tsx:40-49 | toggling an unselected value twice restores the selection |
| TaskFiltersUi.ToggleKeepsDistinct | src/components/task/TaskFilters.tsx:40-49 | a duplicate-free selection stays duplicate-free |
| TaskFiltersUi.StatusTogglePatch | src/components/task/TaskFilters.tsx:46-48 | the status toggle sends a patch with only the status key, holding the toggled selection |
| TaskFiltersUi.PriorityTogglePatch | src/components/task/TaskFilters.tsx:57-59 | the priority toggle sends a patch with only the priority key, holding the toggled selection |
| TaskFiltersUi.SearchPatch | src/components/task/TaskFilters.tsx:37 | a patch with only the search key: the value, or `undefined` for "" |
| TaskFiltersUi.FilterPanel.constructor | src/components/task/TaskFilters.tsx:28-30 | the search input starts from the stored search (or ""); the sort starts as createdAt, descending |
| TaskFiltersUi.FilterPanel.HandleSearchChange | src/components/task/TaskFilters.tsx:35-38 | the input becomes the value and the filters are merged with the search patch; the tasks and the error are untouched |
| TaskFiltersUi.FilterPanel.HandleStatusToggle | src/components/task/TaskFilters.tsx:40-49 | only the status filter changes, to the toggled selection |
| TaskFiltersUi.FilterPanel.HandlePriorityToggle | src/components/task/TaskFilters.tsx:51-60 | only the priority filter changes, to the toggled selection |
| TaskFiltersUi.FilterPanel.HandleClearFilters | src/components/task/TaskFilters.tsx:62-65 | the input becomes "" and the filters become `{}` |
| TaskFiltersUi.NextSort | src/components/task/TaskFilters.tsx:67-74 | the chosen option is selected; choosing the current option flips the direction; any other option starts ascending |
| TaskFiltersUi.NextSortTwice | src/components/task/TaskFilters.tsx:67-74 | choosing the current option twice restores the state; choosing a new option twice ends descending |
| TaskFiltersUi.FilterPanel.HandleSort | src/components/task/TaskFilters.tsx:67-74 | the sort state becomes `NextSort` of the old one; the search input is kept |
| TaskFiltersUi.ActiveCount | src/components/task/TaskFilters.tsx:76-79 | the count is at least the number of selected statuses plus selected priorities; its exact value is stated by the lemmas below |
| TaskFiltersUi.ActiveCountZeroIff | src/components/task/TaskFilters.tsx:76-79 | the badge shows 0 exactly when no filter constrains the view |
| TaskFiltersUi.ToggleOnCountsOne | src/components/task/TaskFilters.tsx:40-79 | selecting one more status raises the count by one |
| TaskFiltersUi.PriorityToggleOnCountsOne | src/components/task/TaskFilters.tsx:51-79 | selecting one more priority raises the count by one |
| TaskFiltersUi.ToggleOffCountsDown | src/components/task/TaskFilters.tsx:40-79 | deselecting a status or a priority of a duplicate-free selection lowers the count by one |
| TaskFiltersUi.SearchCountsOne | src/components/task/TaskFilters.tsx:35-79 | after a search change the count is the selected statuses plus the selected priorities, plus one exactly when the value is non-empty |
| TaskFiltersUi.FilterPanel.ActiveFilterCount | src/components/task/TaskFilters.tsx:76-79 | the badge's number for the store's filters is 0 exactly when no filter constrains the view |
| TaskFiltersUi.ShowingCount | src/components/task/TaskFilters.tsx:251 | "Showing N tasks" counts the whole, unfiltered list |
| TaskBoardUi.ColumnsAreStatuses | src/components/task/TaskBoard.tsx:28-36 | the columns are To Do, In Progress and Done, in that order, each titled with its status |
| TaskBoardUi.BoardTasks | src/components/task/TaskBoard.tsx:58-83 | the columns' tasks, column after column, are the filtered view as a multiset |
| TaskBoardUi.Board.VisibleTasks | src/components/task/TaskBoard.tsx:105-111 | the board shows `getTasksByStatus` of each column, in column order |
| TaskBoardUi.FindById | src/components/task/TaskBoard.tsx:58-60 | `find` gives none exactly when no task has the id; otherwise the first task with the id |
| TaskBoardUi.ColumnWithId | src/components/task/TaskBoard.tsx:74 | a column is found exactly when the id names a status |
| TaskBoardUi.DropStatus | src/components/task/TaskBoard.tsx:64-88 | no target gives no call; a column target gives that column's status; otherwise, a different task on the board gives its status, and anything else gives no call |
| TaskBoardUi.DropOntoTasks | src/components/task/TaskBoard.tsx:80-87 | a drop onto itself or onto an unknown id changes nothing; a drop onto another visible task takes that task's status, and that task is in the filtered view |
| TaskBoardUi.AfterDrop | src/components/task/TaskBoard.tsx:64-88 | length is kept and no other task changes; without a call the list is unchanged; with one, the dragged task gets the new status and timestamp |
| TaskBoardUi.Board.constructor | src/components/task/TaskBoard.tsx:39-41 | the board starts with the dialog closed and no dragged task, over the shared store |
| TaskBoardUi.Board.HandleDragStart | src/components/task/TaskBoard.tsx:56-62 | records the first visible task with the dragged id, or none |
| TaskBoardUi.Board.HandleDragEnd | src/components/task/TaskBoard.tsx:64-88 | clears the dragged task; makes at most one store call, `updateTaskStatus` on the dragged id, with the new list `AfterDrop`; the filters are kept |
| TaskBoardUi.Board.HandleCreateTask | src/components/task/TaskBoard.tsx:51-54 | one `addTask` with the form values appends exactly one task; the dialog closes |

## Left out

- Rendering, JSX and styling; the dnd-kit sensors, collision detection and drag overlay: these are presentation and gesture handling.
- `fetch`, URL building, `encodeURIComponent` and JSON decoding: network I/O. The oracle `api` stands for their outcome.
- react-query caching, query keys, stale and cache times, and the `enabled: !!id` switch of the lookup query: asynchronous library behaviour.
- `console.error` logging in the recipe queries: output only.
- `uuidv4()` and the clock: parameters. Ids are assumed fresh where a lemma needs it, and timestamps are opaque strings.
- `formatDate`, `formatDateTime`, `isDateOverdue`, `isValidUrl`, `cn` and `safeLocalStorage` in src/lib/utils.ts: locale formatting, the clock, the URL constructor, class-name libraries and browser storage.
- The inline `truncateText` of the recipe table has the same rule as `truncateString`, so `Utils.TruncateString` covers it.
- JsString.Lower: ASCII case mapping only. JavaScript's `toLowerCase` maps all of Unicode, such as "İ" or the Kelvin sign.
- Strings are sequences of Dafny `char`, which are Unicode scalar values, not UTF-16 code units. A character outside the Basic Multilingual Plane, such as an emoji, counts once here and twice in JavaScript, and a lone surrogate half cannot be represented. So every length rule differs for such text, as the next two lines say.
- Validations.ValidateForm, Validations.ValidateTask: the title limits (at least 1 and at most 100) count characters, not UTF-16 code units. A title of 60 emoji is 120 code units long, so zod rejects it, but the model accepts it.
- Utils.TruncateString: maxLength is an integer here; a fractional or NaN maxLength (JavaScript's `number`, where `substring` truncates 2.5 to 2 and a NaN length gives "...") is not modelled. The one caller in the app passes 80.
- Utils.TruncateString: the length and the cut count characters, not code units. For text outside the Basic Multilingual Plane the cut point differs from JavaScript's, and JavaScript may split a surrogate pair, which the model cannot express.
- JsString.IsWhitespace: a fixed set of ECMAScript white-space and line-terminator code points. A newer Unicode space separator outside that set is not `trim`med.
- Utils.SortTasksByPriority: the weights are the corrected `PriorityWeight` of the Findings table. As written, an inherited key such as "constructor" makes the comparator return NaN; that case, and the engine's behaviour under an inconsistent comparator, are not modelled. Any other string, such as "urgent", weighs 0 and is modelled.
- Utils.SortTasksByDueDate: the date key is an oracle returning an integer. An unparsable date (NaN in JavaScript, which makes the comparator inconsistent) is not modelled.
- Utils.SortBy: the engine's sort algorithm is not modelled. The model sorts by stable insertion, which any stable sort agrees with on a consistent comparator.
- Validations.ValidateForm, Validations.ValidateTask: date parsing and "now" are oracles. zod's built-in messages are not modelled, only the custom ones. Raw values are strings or absent, so the non-string type errors of zod are not modelled. The UUID check is the 8-4-4-4-12 hexadecimal shape, without zod's version and variant rules.
- TaskStore.Store.AddTask: `createdAt` and `updatedAt` come from two separate clock readings, so they need not be equal.
- TaskFiltersUi.FilterPanel.HandleSort: the chosen sort is kept in the panel state but, as in the component, never applied to the task list.
- `isLoading` is never changed by any action, and only the constructor sets it.

## Findings

| source | as written | input that shows it | evidently intended | confidence | as-written member | corrected member |
|---|---|---|---|---|---|---|
| src/lib/utils.ts:33-34 | `weights[priority] \|\| 0` looks up a plain object literal, so a key inherited from `Object.prototype` is found | `getPriorityWeight("constructor")` returns the `Object` function, not a number; the priority sort then subtracts a function and sorts by NaN | 3, 2, 1 for High, Medium, Low and 0 for every other string | not executed | Utils.PriorityWeightAsWritten, Utils.ConstructorWeightIsFunction | Utils.PriorityWeight, Utils.WeightAsWrittenAgrees |
