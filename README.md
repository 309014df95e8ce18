# Migration validation dashboard: a Dafny model of its page logic

The dashboard is a React single-page application that walks a user through a
data migration check: upload a field mapping, configure the source and the
target connection, pick tables and fields, choose validation checks, run the
validation and read the results, plus a settings page. Connectivity, file
parsing and the checks themselves are simulated with timers and random
numbers; what is real is the bookkeeping each page does with its state.

This project models that bookkeeping, page by page:

- `Js` (js.dfy): the JavaScript built-ins the pages rely on, stated once. These are
  `Array.prototype.filter` and `map`, ASCII `toLowerCase`, `includes`, decimal
  `parseInt`, `String(n)` and the `parseInt(x) || 30` idiom, together with the
  lemmas the pages need about them.
- `RunValidation` (run_validation.dfy): the validation-run simulator.
  - A class `ValidationRunner` holds the run record, the six steps, the stop dialog and the simulator's closure variables.
  - `Tick` stands for the 500 ms interval and `ProcessStep` for the 1000 ms timeout.
  - The random increment and the three random outcome draws are parameters.
  - The invariant `Coherent` ties the run record to the steps.
- `SelectTables` (select_tables.dfy): the table and field selection handlers on a class
  `TableSelection`, the catalogue search, the field marker rule, and the selected-field
  total, computed by a loop over the record and proved equal to a sum over the map.
- `Validations` (validations.dfy): toggling checks, the enabled and critical
  sub-lists, the time estimate, the start gate, and the
  grouping by category, computed by a loop and proved against a specification. It also
  models `getSeverityColor`, a helper the page defines but never calls.
- `Results` (results.dfy): status counts, the issue total and the two-selector filter.
- `UploadMapping` (upload_mapping.dfy): the upload, drop, processing and remove state
  machine on a class `MappingUpload`, the status counts and the Continue gate.
- `ConnectionForm` (connection_form.dfy): what the source and target pages share. It
  holds the rule that decides a connection test's outcome and the rule that decides
  whether the page lets the user continue.
- `SourceConfig` (source_config.dfy) and `TargetConfig` (target_config.dfy): the two
  configuration pages as classes. Each has a single-key form update, a connection
  test whose timer judges the form as it stood when the test started, and its
  continue gate.
- `Settings` (settings.dfy): the settings page as a class. It covers connection deletion,
  notification toggling, the general inputs with their numeric fallback, the
  validation-default switches, and the unsaved-changes flag.

Where the code's behaviour differs from what the page's wording suggests, the
model follows the code:

- Pausing or stopping a run does not stop the interval. `Tick` neither reads nor writes the run status.
- A run stopped while steps remain is overwritten with `completed` when the last step's timeout fires.
- Overall progress reaches 100 one timeout before the run is marked completed.
- A step's error and warning are drawn independently of its failed status.
- "Reset" on the settings page only clears the unsaved-changes flag; no setting changes.
- The target page defines a file-upload handler but no input calls it, so a file target never lets the user continue. This holds although the file panel is commented "Auto-mark as valid for file export" and shows "Export configuration ready" (client/pages/TargetConfig.tsx:427-433): Continue stays disabled (client/pages/TargetConfig.tsx:505).
- Removing an uploaded mapping file does not cancel the processing timer, so the mapping table can reappear with no file shown (`UploadMapping.RemoveBeforeProcessingEnds`).

## Model

| member | source | states |
|---|---|---|
| Js.Filter | client/pages/SelectTables.tsx:276 | `Array.prototype.filter` keeps exactly the elements that pass the test and is never longer than its input |
| Js.FilterMultiplicity | client/pages/SelectTables.tsx:276 | the filter keeps every copy of an element that passes the test and no copy of one that fails |
| Js.Map | client/pages/Validations.tsx:151-155 | `Array.prototype.map` keeps the length and puts `f` of the i-th element at position i |
| Js.ToLower | client/pages/SelectTables.tsx:241-243 | `toLowerCase` keeps the length and maps each ASCII capital to its small letter, every other character to itself |
| Js.Contains | client/pages/SelectTables.tsx:241-243 | `includes` can only be true when the searched-for text is no longer than the text searched |
| Js.ContainsAt | client/pages/SelectTables.tsx:241-243 | `includes` is true whenever the searched-for text occurs at some offset |
| Js.ContainsWitness | client/pages/SelectTables.tsx:241-243 | when `includes` is true, the searched-for text occurs at the offset returned |
| Js.ParseInt | client/pages/Settings.tsx:364 | `parseInt` gives NaN exactly when no decimal digit follows the leading white space and optional sign |
| Js.NatToString | client/pages/Settings.tsx:360 | `String(n)` of a non-negative number is a non-empty run of decimal digits with no leading zero |
| Js.IntToString | client/pages/RunValidation.tsx:60 | `String(n)` of an integer starts with a minus sign iff the number is negative, and the rest is a non-empty run of decimal digits; `Js.ParseIntOfIntToString` is its inverse |
| Js.NumberThenText | client/pages/Validations.tsx:213-215 | `parseInt` reads a shown number back from the front of a text when a non-digit follows it |
| Js.IntOrElse | client/pages/Settings.tsx:364 | `parseInt(text) \|\| fallback` is never 0 when the fallback is not 0 |
| Js.ParseIntOfIntToString | client/pages/Settings.tsx:361-367 | parsing the decimal text of any integer gives that integer back |
| Js.IntOrElseOfIntToString | client/pages/Settings.tsx:361-367 | a number shown in a numeric box reads back as itself, except 0, which reads back as the fallback |
| Js.IntOrElseOfEmpty | client/pages/Settings.tsx:361-367 | an emptied numeric box reads as the fallback |
| RunValidation.ConfiguredSteps | client/pages/RunValidation.tsx:70-118 | the configured step array has exactly `totalSteps` = 6 entries, all pending, at progress 0, with no records figure and no start time |
| RunValidation.Advance | client/pages/RunValidation.tsx:177-182 | one tick never lowers the accumulator and raises it by less than 20; the result is exactly 100 iff the sum reached 100, and otherwise it is the sum |
| RunValidation.RecordsAt | client/pages/RunValidation.tsx:224-226 | the records figure of a running step lies in [0, totalRecords]; it is 0 at 0 percent and the total at 100 percent |
| RunValidation.RecordsAtMonotone | client/pages/RunValidation.tsx:224-226 | the records figure never goes down while progress goes up |
| RunValidation.OverallAt | client/pages/RunValidation.tsx:203-205 | the overall figure after i of n steps lies in [0, 100]; it is 0 for none and 100 for all |
| RunValidation.OverallDuring | client/pages/RunValidation.tsx:232-237 | while step i of n runs, the overall figure lies between its values after i and after i+1 steps |
| RunValidation.OverallDuringIsShare | client/pages/RunValidation.tsx:232-237 | during step i at p percent, the overall figure is (100·i + p)/n |
| RunValidation.OverallDuringBetween | client/pages/RunValidation.tsx:232-237 | during step i the overall figure lies between its values after i and after i+1 steps; it starts at the first and equals the second iff p = 100 |
| RunValidation.OverallDuringMonotone | client/pages/RunValidation.tsx:232-237 | during one step the overall figure grows with the step's progress |
| RunValidation.StartStep | client/pages/RunValidation.tsx:163-173 | starting a step makes it running at 0 percent with the given start time and keeps its configured fields |
| RunValidation.ProgressStep | client/pages/RunValidation.tsx:218-230 | a tick below 100 leaves the step running at the new progress with its records figure within its total |
| RunValidation.FinishStep | client/pages/RunValidation.tsx:185-199 | a finished step is at 100 percent with status completed or failed, failed iff its draw says so, its records figure equals its total, and its error and warning come from their own draws |
| RunValidation.TickBelowFull | client/pages/RunValidation.tsx:218-242 | a tick below 100 keeps the run record coherent with the steps and never lowers the overall figure |
| RunValidation.TickReachesFull | client/pages/RunValidation.tsx:185-215 | storing a finished step with the same configured fields keeps the run coherent at the next index and never lowers the overall figure |
| RunValidation.OnlyCurrentStepRuns | client/pages/RunValidation.tsx:145-244 | in every reachable state at most one step is running, and only the step at the current index while its interval is armed |
| RunValidation.StepsStartInOrder | client/pages/RunValidation.tsx:145-244 | steps leave pending strictly in array order: every step before one that has moved on is completed or failed |
| RunValidation.RecordsWithinTotal | client/pages/RunValidation.tsx:185-230 | every step's records figure lies within its total, and a finished step shows exactly its total |
| RunValidation.OverallFullIffAllFinished | client/pages/RunValidation.tsx:148-244 | the overall figure lies in [0, 100] and is 100 exactly when every step has finished |
| RunValidation.Offered | client/pages/RunValidation.tsx:345-391 | every offered control makes one of the four intended transitions (start, pause, resume, stop); nothing is offered iff the run is completed or failed; Stop is offered iff the run is running or paused |
| RunValidation.ValidationRunner.constructor | client/pages/RunValidation.tsx:59-118 | the page opens with a not-started run of 6 steps at progress 0, the configured steps and the dialog closed |
| RunValidation.ValidationRunner.StartValidation | client/pages/RunValidation.tsx:120-130 | start sets the run running, stamps its start time and an estimated completion 15 minutes later, and starts step 0 |
| RunValidation.ValidationRunner.ProcessStep | client/pages/RunValidation.tsx:148-173 | past the last step the run becomes completed with progress 100 and completedSteps = totalSteps; otherwise only the step at the index is started; the overall figure never drops |
| RunValidation.ValidationRunner.Tick | client/pages/RunValidation.tsx:177-244 | a tick rewrites only the step at the current index, keeps the run status, never lowers the overall figure, and either advances the step or finishes it with completedSteps = i+1 and overall (i+1)/n·100 |
| RunValidation.ValidationRunner.AdvanceCurrentStep | client/pages/RunValidation.tsx:218-242 | a tick that stays below 100 sets the current step to the new progress, raises the overall figure to its share of that progress, and keeps the run coherent |
| RunValidation.ValidationRunner.FinishCurrentStep | client/pages/RunValidation.tsx:185-215 | a tick that reaches 100 stores the finished step at the current index, sets completedSteps to i+1 and the overall figure to (i+1)/n·100, and moves to the gap before the next step |
| RunValidation.ValidationRunner.PauseValidation | client/pages/RunValidation.tsx:132-134 | pause sets the status to paused and changes nothing else |
| RunValidation.ValidationRunner.ResumeValidation | client/pages/RunValidation.tsx:136-138 | resume sets the status to running and changes nothing else |
| RunValidation.ValidationRunner.OpenStopDialog | client/pages/RunValidation.tsx:362-364 | the Stop button, offered only while running or paused, opens the confirmation dialog |
| RunValidation.ValidationRunner.CloseStopDialog | client/pages/RunValidation.tsx:570-582 | cancelling closes the dialog |
| RunValidation.ValidationRunner.StopValidation | client/pages/RunValidation.tsx:140-143 | confirming the stop sets the status to failed, whatever it is by then, and closes the dialog |
| SelectTables.Catalogue | client/pages/SelectTables.tsx:66-239 | the catalogue holds four tables with distinct names |
| SelectTables.FindTable | client/pages/SelectTables.tsx:249 | `find` returns nothing iff no table has the name, and otherwise the first table with that name |
| SelectTables.FilteredTables | client/pages/SelectTables.tsx:241-243 | a table is listed iff its lower-cased name contains the lower-cased term, in catalogue order, with every copy of a kept element and none of a dropped one |
| SelectTables.EmptySearchKeepsAll | client/pages/SelectTables.tsx:241-243 | an empty search lists the whole catalogue |
| SelectTables.SearchIgnoresTermCase | client/pages/SelectTables.tsx:241-243 | the search gives the same list for a term and for its lower-cased form |
| SelectTables.FieldIcon | client/pages/SelectTables.tsx:310-315 | the marker is the key iff primary key, else the link iff foreign key, else the required mark iff not nullable, else nothing |
| SelectTables.FieldCountRemove | client/pages/SelectTables.tsx:303-308 | the sum of list lengths over the record does not depend on the order of its keys |
| SelectTables.FieldCountUpdate | client/pages/SelectTables.tsx:303-308 | writing a key replaces exactly that key's contribution to the sum |
| SelectTables.TotalSelectedFields | client/pages/SelectTables.tsx:303-308 | the reduce over the record's values returns the sum of the list lengths over the map |
| SelectTables.AllFields | client/pages/SelectTables.tsx:288-296 | the select-all record has exactly the catalogue's table names as keys |
| SelectTables.AllFieldsLookup | client/pages/SelectTables.tsx:288-296 | with distinct names each table is mapped to exactly its own field names, in declaration order |
| SelectTables.BuildAllFields | client/pages/SelectTables.tsx:290-295 | the `forEach` loop builds exactly the select-all record |
| SelectTables.TableSelection.constructor | client/pages/SelectTables.tsx:58-63 | the page opens with an empty search, no table and an empty field record |
| SelectTables.TableSelection.SetSearchTerm | client/pages/SelectTables.tsx:58 | the search box sets the term |
| SelectTables.TableSelection.HandleTableSelect | client/pages/SelectTables.tsx:245-262 | checking appends the name and maps a catalogue table to all its fields; unchecking drops every occurrence of the name and its key; no other key changes |
| SelectTables.TableSelection.HandleFieldSelect | client/pages/SelectTables.tsx:264-281 | only the table's list changes, to the list the field checkbox leaves |
| SelectTables.FieldListAfter | client/pages/SelectTables.tsx:264-281 | checking appends the field to the list, a missing list counting as empty; unchecking removes every occurrence of the field and keeps the order and every other field with its number of copies |
| SelectTables.TableSelection.SelectAllTables | client/pages/SelectTables.tsx:288-296 | every catalogue name is selected in catalogue order, each mapped to all its fields |
| SelectTables.TableSelection.ClearAllTables | client/pages/SelectTables.tsx:298-301 | both the list and the record are emptied, so the field total is 0 |
| SelectTables.SelectAllMapsEveryTable | client/pages/SelectTables.tsx:288-296 | after select-all every catalogue table is a key mapped to exactly its own fields |
| SelectTables.CheckTableCount | client/pages/SelectTables.tsx:245-255 | checking a table sets its contribution to the total to its number of fields |
| SelectTables.UncheckTableCount | client/pages/SelectTables.tsx:256-261 | unchecking a table lowers the total by exactly its list's length |
| SelectTables.ContinueDisabled | client/pages/SelectTables.tsx:676 | "Continue to Validations" is disabled iff no table is selected |
| SelectTables.SelectionEnablesContinue | client/pages/SelectTables.tsx:676 | after checking any table, or selecting all of them, Continue is enabled |
| SelectTables.UncheckOnlyTableDisablesContinue | client/pages/SelectTables.tsx:676 | unchecking the only selected table disables Continue again |
| Validations.InitialOptions | client/pages/Validations.tsx:53-136 | the page starts with eight options with distinct ids, exactly the first four enabled |
| Validations.Toggled | client/pages/Validations.tsx:149-155 | toggling keeps length, order and every field except `enabled`, which flips exactly on the options with that id |
| Validations.ToggleTwice | client/pages/Validations.tsx:149-155 | toggling the same id twice restores the list |
| Validations.ToggleUnknown | client/pages/Validations.tsx:149-155 | toggling an id no option carries changes nothing |
| Validations.ValidationsPage.constructor | client/pages/Validations.tsx:53-136 | the page opens with the initial options |
| Validations.ValidationsPage.ToggleValidation | client/pages/Validations.tsx:149-155 | the options become the toggled list |
| Validations.EnabledValidations | client/pages/Validations.tsx:157 | an option is listed iff it is enabled, in page order, with every copy of a kept element and none of a dropped one |
| Validations.CriticalValidations | client/pages/Validations.tsx:158-160 | an option is listed iff it is enabled and critical; the list is an ordered sub-list of the enabled list and equals a single filter of the options by both tests |
| Validations.ToggleEnabledCount | client/pages/Validations.tsx:149-157 | when no other option carries the id of option i, toggling it moves the enabled count by exactly one, down if it was on and up if it was off |
| Validations.StartDisabled | client/pages/Validations.tsx:586 | the start button is disabled iff no option is enabled |
| Validations.EstimatedTime | client/pages/Validations.tsx:205-216 | the upper bound is the lower bound plus 10; the lower bound is 4 minutes per enabled check when a complex check is on and 2 otherwise, and is 0 iff the start button is disabled |
| Validations.EstimateText | client/pages/Validations.tsx:213-215 | the shown text reads back, through `parseInt`, as the lower bound at its front and the upper bound after the dash, and ends in " minutes" |
| Validations.ComplexInEnabled | client/pages/Validations.tsx:208-210 | looking for a complex check among the enabled list is the same as looking among the options that are on |
| Validations.SeverityColor | client/pages/Validations.tsx:175-188 | critical, high and medium each get their own class iff the severity is that value; any other value gets the muted class |
| Validations.SeverityColorOfOption | client/pages/Validations.tsx:175-188 | among the four severities, `getSeverityColor` maps only `low` to the muted class |
| Validations.FirstAppearancesExact | client/pages/Validations.tsx:218-228 | the group keys are exactly the categories that occur, each once |
| Validations.GroupIndex | client/pages/Validations.tsx:221-223 | the lookup finds the group of the category, or reports that none exists yet |
| Validations.TotalMembersPush | client/pages/Validations.tsx:225 | pushing one option onto a group raises the total group size by one |
| Validations.GroupsDistinct | client/pages/Validations.tsx:218-228 | the grouped record never holds two groups of one category |
| Validations.PushExisting | client/pages/Validations.tsx:221-225 | pushing an option onto its category's existing group keeps the grouping exact |
| Validations.PushNew | client/pages/Validations.tsx:221-225 | opening a new group for an unseen category keeps the grouping exact |
| Validations.PushKeepsGrouped | client/pages/Validations.tsx:219-227 | one step of the reduce turns an exact grouping of the first i options into an exact grouping of the first i+1 |
| Validations.GroupByCategory | client/pages/Validations.tsx:218-228 | the grouped record lists the present categories in the order `Object.entries` shows them, each with exactly its options in original order; no group is empty and the sizes add up to the number of options |
| Results.StatusName | client/pages/Results.tsx:344-347 | no status is spelled "all" |
| Results.StatusNameInjective | client/pages/Results.tsx:344-347 | two statuses have the same selector value iff they are equal |
| Results.SampleResults | client/pages/Results.tsx:64-130 | the page shows five results |
| Results.CountStatus | client/pages/Results.tsx:172-180 | a status count is at most the number of results and is 0 iff no result has that status |
| Results.TotalIssues | client/pages/Results.tsx:181 | the issue total is at least the issue count of every single result |
| Results.CountsPartition | client/pages/Results.tsx:171-180 | passed + failed + warning equals the number of results |
| Results.TotalIssuesAppend | client/pages/Results.tsx:181 | the issue total over two lists laid end to end is the sum of their totals |
| Results.TotalIssuesSingle | client/pages/Results.tsx:181 | a single result contributes exactly its own issue count; with `TotalIssuesAppend` this fixes the reduce as the sum of the issue counts |
| Results.TotalIssuesZero | client/pages/Results.tsx:181 | the issue total is 0 iff no result has an issue |
| Results.TotalIssuesByStatus | client/pages/Results.tsx:181 | the issue total is the sum of the totals of the pass, fail and warning results |
| Results.FilteredResults | client/pages/Results.tsx:184-190 | a result is listed iff the table selector is "all" or its table and the status selector is "all" or its status, in original order, with every copy of a kept element and none of a dropped one |
| Results.AllAllShowsEverything | client/pages/Results.tsx:184-190 | with both selectors on "all" every result is listed |
| Results.FilterAgainChangesNothing | client/pages/Results.tsx:184-190 | filtering the filtered list again with the same selectors changes nothing |
| Results.SelectorsCompose | client/pages/Results.tsx:184-190 | selecting the table alone and then the status alone gives the combined selection |
| Results.StatusSelectorMatchesCount | client/pages/Results.tsx:172-190 | the status selector alone lists exactly as many results as that status's count |
| UploadMapping.SampleMappings | client/pages/UploadMapping.tsx:38-74 | processing produces five rows, the last in error |
| UploadMapping.CsvDropAccepted | client/pages/UploadMapping.tsx:97 | a file dropped with the type "text/csv" is accepted |
| UploadMapping.MappingUpload.constructor | client/pages/UploadMapping.tsx:34-36 | the page opens with no file, no rows and nothing processing |
| UploadMapping.MappingUpload.HandleFileUpload | client/pages/UploadMapping.tsx:76-88 | a chosen file is kept, processing starts and a timer is armed; with no file nothing changes |
| UploadMapping.MappingUpload.HandleDrop | client/pages/UploadMapping.tsx:94-106 | a dropped file is taken as an upload iff its type contains "csv" or "excel"; otherwise nothing changes |
| UploadMapping.MappingUpload.ProcessingDone | client/pages/UploadMapping.tsx:83-86 | a firing timer installs the sample rows and ends processing, leaving the file as it is |
| UploadMapping.MappingUpload.RemoveFile | client/pages/UploadMapping.tsx:108-111 | removing clears the file and the rows; a pending timer stays armed |
| UploadMapping.CountMapping | client/pages/UploadMapping.tsx:139-141 | a status count is at most the number of rows and is 0 iff no row has that status |
| UploadMapping.CountsPartition | client/pages/UploadMapping.tsx:139-141 | valid + warning + error equals the number of rows |
| UploadMapping.ContinueShown | client/pages/UploadMapping.tsx:311 | the Continue section is shown iff the mapping table holds at least one row |
| UploadMapping.ContinueDisabled | client/pages/UploadMapping.tsx:325 | Continue is disabled iff some row is in error |
| UploadMapping.SampleBlocksContinue | client/pages/UploadMapping.tsx:311-329 | once the sample rows are shown, the Continue section appears with its button disabled |
| UploadMapping.RemoveBeforeProcessingEnds | client/pages/UploadMapping.tsx:76-111 | after an upload, a remove and the timer firing, the rows are back while no file is shown |
| ConnectionForm.TestOutcome | client/pages/SourceConfig.tsx:65-73 | a finished test never reports idle; it reports success iff host, database, username and password are all non-empty, and error iff one is empty |
| ConnectionForm.ConfigValid | client/pages/SourceConfig.tsx:83-94 | a database configuration is valid iff the test succeeded and the four credentials are non-empty now; a file configuration is valid iff a file is present |
| ConnectionForm.ContinueDisabled | client/pages/SourceConfig.tsx:433 | for a database, Continue stays disabled iff the last test did not succeed or a credential is empty; for a file, iff no file is uploaded |
| ConnectionForm.TestedCredentialsDecideValidity | client/pages/SourceConfig.tsx:65-94 | testing the credentials still in the form makes the database configuration valid iff they are all present |
| ConnectionForm.MissingCredentialBlocks | client/pages/SourceConfig.tsx:83-92 | with an empty credential a database configuration is invalid and Continue disabled, whatever the last test said |
| ConnectionForm.UntestedBlocks | client/pages/SourceConfig.tsx:83-92 | without a successful test a database configuration is invalid |
| SourceConfig.InitialConfig | client/pages/SourceConfig.tsx:47-54 | the form opens on port 5432 and postgresql, with the credentials empty |
| SourceConfig.WithField | client/pages/SourceConfig.tsx:56-58 | an edit sets its key to the new value and leaves every other key as it was |
| SourceConfig.ConfigExtensional | client/pages/SourceConfig.tsx:29-36 | a form is determined by its six keys |
| SourceConfig.WithSameValue | client/pages/SourceConfig.tsx:56-58 | writing back a key's current value changes nothing |
| SourceConfig.LaterEditWins | client/pages/SourceConfig.tsx:56-58 | of two edits of one key the later wins |
| SourceConfig.IsConfigValid | client/pages/SourceConfig.tsx:83-94 | a database source is valid iff the test succeeded and host, database, username and password are non-empty; a file source iff a file is uploaded |
| SourceConfig.PortAndTypeIrrelevant | client/pages/SourceConfig.tsx:83-94 | editing the port or the database type never changes validity |
| SourceConfig.ClearingCredentialInvalidates | client/pages/SourceConfig.tsx:83-92 | clearing a credential makes a database source invalid, even after a successful test |
| SourceConfig.SourcePage.constructor | client/pages/SourceConfig.tsx:39-54 | the page opens on a database source, idle, with no file and the initial form |
| SourceConfig.SourcePage.HandleDbConfigChange | client/pages/SourceConfig.tsx:56-58 | the form becomes the edited form |
| SourceConfig.SourcePage.TestConnection | client/pages/SourceConfig.tsx:60-63 | starting a test sets connecting and the idle status and remembers the form as it stands |
| SourceConfig.SourcePage.FinishConnectionTest | client/pages/SourceConfig.tsx:65-73 | the firing test reports the outcome for the form it was started with and ends connecting |
| SourceConfig.SourcePage.HandleFileUpload | client/pages/SourceConfig.tsx:76-81 | a chosen file replaces the current one; with no file nothing changes |
| SourceConfig.SourcePage.RemoveFile | client/pages/SourceConfig.tsx:363 | the Remove button clears the file |
| SourceConfig.SourcePage.SetSourceType | client/pages/SourceConfig.tsx:116 | the radio group sets the source kind |
| SourceConfig.TestUnchangedForm | client/pages/SourceConfig.tsx:60-94 | a test that finishes with no edit in between makes a database source valid iff the four credentials are present |
| TargetConfig.InitialConfig | client/pages/TargetConfig.tsx:51-59 | the form opens on port 5432, postgresql and an empty schema, with the credentials empty |
| TargetConfig.WithField | client/pages/TargetConfig.tsx:61-63 | an edit, including one of the schema, sets its key and leaves every other key as it was |
| TargetConfig.ConfigExtensional | client/pages/TargetConfig.tsx:32-40 | a form is determined by its seven keys |
| TargetConfig.WithSameValue | client/pages/TargetConfig.tsx:61-63 | writing back a key's current value changes nothing |
| TargetConfig.LaterEditWins | client/pages/TargetConfig.tsx:61-63 | of two edits of one key the later wins |
| TargetConfig.IsConfigValid | client/pages/TargetConfig.tsx:88-99 | a database target is valid iff the test succeeded and host, database, username and password are non-empty; a file target iff a file is uploaded |
| TargetConfig.PortTypeSchemaIrrelevant | client/pages/TargetConfig.tsx:88-97 | editing the port, the database type or the schema never changes validity |
| TargetConfig.ClearingCredentialInvalidates | client/pages/TargetConfig.tsx:88-97 | clearing a credential makes a database target invalid, even after a successful test |
| TargetConfig.FileTargetNeedsFile | client/pages/TargetConfig.tsx:98 | without an uploaded file a file target is never valid |
| TargetConfig.TargetPage.constructor | client/pages/TargetConfig.tsx:43-59 | the page opens on a database target, idle, with no file and the initial form |
| TargetConfig.TargetPage.HandleDbConfigChange | client/pages/TargetConfig.tsx:61-63 | the form becomes the edited form |
| TargetConfig.TargetPage.TestConnection | client/pages/TargetConfig.tsx:65-68 | starting a test sets connecting and the idle status and remembers the form as it stands |
| TargetConfig.TargetPage.FinishConnectionTest | client/pages/TargetConfig.tsx:70-78 | the firing test reports the outcome for the form it was started with and ends connecting |
| TargetConfig.TargetPage.HandleFileUpload | client/pages/TargetConfig.tsx:81-86 | a chosen file replaces the current one; with no file nothing changes |
| TargetConfig.TargetPage.SetTargetType | client/pages/TargetConfig.tsx:153 | the radio group sets the target kind |
| TargetConfig.TestUnchangedForm | client/pages/TargetConfig.tsx:65-99 | a test that finishes with no edit in between makes a database target valid iff the four credentials are present |
| Settings.InitialGeneral | client/pages/Settings.tsx:91-100 | the general settings open with timeout and retention at the fallback value 30 |
| Settings.InitialConnections | client/pages/Settings.tsx:103-128 | the page opens with two connections with distinct ids |
| Settings.InitialNotifications | client/pages/Settings.tsx:131-148 | the page opens with two notification channels with distinct ids |
| Settings.InitialDefaults | client/pages/Settings.tsx:151-161 | the four basic checks start on, the foreign-key and duplicate checks off, statistics included, no stop at the first error and no custom queries |
| Settings.WithoutConnection | client/pages/Settings.tsx:195-198 | a connection stays iff its id differs from the deleted one, in original order, with every copy of a kept element and none of a dropped one |
| Settings.DeleteUnknownKeepsAll | client/pages/Settings.tsx:195-198 | deleting an id no connection carries keeps the list |
| Settings.DeleteTwice | client/pages/Settings.tsx:195-198 | deleting the same id twice is the same as deleting it once |
| Settings.DeleteRemovesOne | client/pages/Settings.tsx:195-198 | with distinct ids, deleting a present id shortens the list by exactly one |
| Settings.ToggledNotifications | client/pages/Settings.tsx:200-207 | toggling keeps length, order and every field except `enabled`, which flips exactly on the entries with that id |
| Settings.ToggleNotificationTwice | client/pages/Settings.tsx:200-207 | toggling the same notification twice restores the list |
| Settings.ApplyGeneral | client/pages/Settings.tsx:267-430 | each general input sets only its own key; the timeout and retention boxes store `parseInt(text) \|\| 30`, which is never 0 |
| Settings.TimeoutInputReadsBack | client/pages/Settings.tsx:361-367 | typing the number the timeout box shows keeps it, except that 0 and an empty box become 30 |
| Settings.RetentionInputReadsBack | client/pages/Settings.tsx:424-430 | the same holds for the retention box |
| Settings.WithSwitch | client/pages/Settings.tsx:604-734 | a validation-default switch sets its own value and leaves the other switches and the query text as they were |
| Settings.SwitchBackRestores | client/pages/Settings.tsx:604-734 | flipping a switch and flipping it back restores the record |
| Settings.SettingsPage.constructor | client/pages/Settings.tsx:86-161 | the page opens with no unsaved changes and the initial records |
| Settings.SettingsPage.DeleteConnection | client/pages/Settings.tsx:195-198 | the list loses the connections with that id and the unsaved flag is set |
| Settings.SettingsPage.ToggleNotification | client/pages/Settings.tsx:200-207 | the notifications become the toggled list and the unsaved flag is set |
| Settings.SettingsPage.SaveSettings | client/pages/Settings.tsx:163-168 | saving clears the unsaved flag |
| Settings.SettingsPage.ResetSettings | client/pages/Settings.tsx:170-173 | resetting clears the unsaved flag and changes no setting |
| Settings.SettingsPage.EditGeneral | client/pages/Settings.tsx:267-430 | a general input installs the edited record, keeps timeout and retention non-zero, and sets the unsaved flag |
| Settings.SettingsPage.SetDefaultSwitch | client/pages/Settings.tsx:604-734 | a switch installs the switched record and sets the unsaved flag |
| Settings.SettingsPage.SetCustomQueries | client/pages/Settings.tsx:749-755 | the text area changes only the query text, keeps every switch and sets the unsaved flag |

## Left out

- Rendering: JSX, Tailwind classes, icons and badges (`getStatusIcon`, `getStatusBadge`, `getSeverityBadge`, `getCategoryIcon`). They only present values the model computes.
- Validations.SeverityColor: models `getSeverityColor` (client/pages/Validations.tsx:175-188), a helper the page defines but never calls. The option list shows `getSeverityBadge(validation.severity)` (client/pages/Validations.tsx:347) instead, and that badge is rendering and is not modelled.
- Timer durations (500 ms ticks, 1000 ms gaps, 2000 ms connection and file delays): each timer is a method the environment calls, and nothing in the pages depends on the lengths.
- `Math.random`: the increment and the three outcome draws are parameters of `Tick`, restricted only to the range the source draws from.
- Dates: `Date`, `formatDuration`, `toLocaleString` and `toLocaleTimeString` are left out. Timestamps are integers the caller supplies. The run id is `"run-"` followed by the supplied time. The `lastUsed` dates of the two sample connections (client/pages/Settings.tsx:113 and :125) are kept as their literal date text, since the page only formats them for display.
- Floating point: progress and the overall figure are exact reals, so binary rounding of the JavaScript numbers is not modelled.
- `successRate` (client/pages/Results.tsx:182) is not modelled: it is a float division formatted with `toFixed`.
- The summary figures of the run page (client/pages/RunValidation.tsx:509-546) are presentation only.
- The configuration export on the settings page (client/pages/Settings.tsx:175-193) and the download buttons of the results page are not modelled: they are browser I/O through Blob, URL and an anchor element.
- Browser objects: `File` and `DragEvent` become a file record (name, type, size) or its absence.
- Routing and layout are not part of this model: client/App.tsx, client/components/Layout.tsx, client/components/Sidebar.tsx, client/components/Header.tsx and client/pages/Overview.tsx are static markup.
- React mechanics: each page's state is one object whose fields are the `useState` slots. Stale closures are modelled only where they change behaviour: the form a connection test judges (`pendingTest`) and the processing timers that outlive a remove (`pendingTimers`).
- View-only state is not modelled: `showPassword(s)`, `activeTab`, `autoScroll`, `isLoading` and `refreshTables` on the table page.
- The configuration panel of the validations page (client/pages/Validations.tsx:138-147 and its handlers) and its custom-validation text are not modelled. They feed no computation.
- The per-category badge counts of the validations page (client/pages/Validations.tsx:308-318) are not modelled. They are rendering of `GroupByCategory`'s groups.
- The `description` texts of the catalogue tables, the validation options and the run steps are not modelled: the pages only render them.
- Js.ParseInt: models decimal `parseInt` with ASCII whitespace only. A number input never yields hexadecimal prefixes or other Unicode spaces. The model returns exact integers, whereas JavaScript's `parseInt` yields a double, so a digit run beyond 2^53 is rounded there.
- The `console.log("Settings saved!")` of `handleSaveSettings` (client/pages/Settings.tsx:167) is console output only and is not modelled.
- Js.ToLower: lower-cases ASCII letters only; the catalogue names and search terms of interest are ASCII.
- Settings.ApplyGeneral: the batch-size and concurrency sliders bound their values (1000 to 100000, 1 to 16). The handler itself does not check them, so the model accepts any integer.
- RunValidation.ValidationRunner.ProcessStep: `validationSteps.length` is read from the closure, which is the configured length 6, the same as the length of the current array.
