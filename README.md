# SLO dashboard: a Dafny model

This project models a React front end for managing service-level objectives (SLOs). It covers four parts:

- **SLO list page.** The records are filtered by search text, service, status, a target range and owner. The table sorts by a clicked column and lets the user select rows. A bulk-action bar dispatches export, duplicate, enable, disable and delete. Each of these except export goes through a confirmation dialog. The export dialog picks a format and the fields to include.
- **Create page.** A fifteen-rule validator checks the form. Drafts are kept in the browser's local storage. A validation summary counts nine required fields and lists the errors, and a cancel flow asks about unsaved changes.
- **Edit page.** An eight-rule form validator. A confirmation dialog decides whether the save writes version 1.5 (a new version) or 1.4.1 (an update). Two analysis panels: the change-impact list and the dependency checker.
- **Small views.** The activity timeline, the version history, the breadcrumb trail and the header's navigation, notifications and menus.

Each component whose state the source updates is a `class`: the list page, the table, the toolbar, the action bar, the export dialog, both form pages, the edit form, the dependency checker, the timeline, the version panel and the header. Its methods have `modifies` clauses and state the whole new state. They also keep a `Valid()` invariant where the page has one, for example "selected ids name existing records". The logic they depend on lives in pure functions, which lemmas relate to independent reference definitions.

Code that builds a value step by step is written as methods proved against a specification function:

- both `validateForm`s: one method per `if` block, chained;
- `getChanges`: five conditional pushes;
- sorting: an in-place insertion sort on an `array`, proved sorted and a permutation;
- the export dialog's select-all.

The browser's `parseFloat` is a concrete parser of the longest decimal prefix. It yields the exact decimal that prefix denotes, not the nearest IEEE-754 double (see "## Left out"). `new URL` is a parameter (an abstract `isUrl` test). String lengths and the string order `<` work on UTF-16 code units, as the browser's do.

## Model

| member | source | states |
|---|---|---|
| SloRecords.MatchesIff | src/pages/slo-list-management/index.jsx:144-183 | A record is displayed exactly when: the search text occurs in its lower-cased name or description; the service and status match exactly, each skipped when empty; its target lies in the closed threshold range; and the owner text occurs in its owner. |
| SloRecords.DatesInert | src/pages/slo-list-management/index.jsx:176-179 | The date filters never change which records are displayed. |
| SloRecords.FilterSlosSubseq | src/pages/slo-list-management/index.jsx:144-183 | The displayed list keeps the records' order and only drops records. |
| SloRecords.FilterSlosIdempotent | src/pages/slo-list-management/index.jsx:144-183 | Filtering the displayed list again with the same filters changes nothing. |
| SloRecords.Ids | src/pages/slo-list-management/index.jsx:17-114 | The id list has one entry per record, each the id of the record at that position. |
| SloRecords.FindIndex | src/pages/slo-list-management/index.jsx:259 | `find` stops at a record with the id, and no earlier record has it. |
| SloRecords.Duplicate | src/pages/slo-list-management/index.jsx:256-274 | The records are kept as a prefix, and one copy per id follows in id order. Copy `i` reads the clock afresh: its id is `<id>-copy-<now(i)>`, its name `<name> (Copy)` and its date `today(i)`. Every other field equals its original's. |
| SloRecords.CopyIdDiffers | src/pages/slo-list-management/index.jsx:262 | A copy's id never equals its original's. |
| SloRecords.DeleteKeeps | src/pages/slo-list-management/index.jsx:277-281 | Delete keeps exactly the records whose id is not listed, in their order. |
| SloRecords.DeleteIdempotent | src/pages/slo-list-management/index.jsx:277-281 | Deleting the same ids twice is the same as deleting them once. |
| SloRecords.DeleteExportPartition | src/pages/slo-list-management/index.jsx:277-281 | What a delete of some ids removes is, as a multiset, exactly what an export of those ids hands over (304-320). |
| SloRecords.SetMonitoring | src/pages/slo-list-management/index.jsx:284-301 | Same length. Each listed record gets the monitoring flag and the date read for it; every other record is unchanged. |
| SloRecords.SetMonitoringIds | src/pages/slo-list-management/index.jsx:284-301 | A status change keeps every id in place. |
| SloRecords.SetMonitoringIdempotent | src/pages/slo-list-management/index.jsx:284-301 | Repeating the same status change changes nothing more. |
| SloTable.NextSortRule | src/pages/slo-list-management/components/SLOTable.jsx:11-17 | A click sorts by the clicked column, descending exactly when that column was sorted ascending, and ascending otherwise. |
| SloTable.NextSortAlternates | src/pages/slo-list-management/components/SLOTable.jsx:11-17 | Clicking the same header again flips the direction, and a third click gives the first click's configuration back. |
| SloTable.NotBeforeTransitive | src/pages/slo-list-management/components/SLOTable.jsx:23-31 | The comparator's "does not come first" relation is transitive, so it is a strict weak order. |
| SloTable.Insert | src/pages/slo-list-management/components/SLOTable.jsx:19-35 | Given a sorted prefix `a[..i]`, the prefix `a[..i+1]` ends sorted and the array holds the same elements. |
| Text.Utf16Length | src/pages/create-new-slo/index.jsx:95-101 | A string's `.length` lies between its number of characters and twice that, and equals it when no character is above U+FFFF. |
| Text.Utf16LengthCounts | src/pages/create-new-slo/index.jsx:95-101 | `.length` is the number of the string's UTF-16 code units. |
| Text.CodeUnits | src/pages/slo-list-management/components/SLOTable.jsx:24-27 | A character is one code unit below U+10000 and two above. Every unit is below 0x10000. |
| Text.Utf16Injective | src/pages/slo-list-management/components/SLOTable.jsx:24-27 | Different strings have different code unit sequences. |
| Text.StrLessIrreflexive | src/pages/slo-list-management/components/SLOTable.jsx:24-27 | No string is less than itself. |
| Text.StrLessTransitive | src/pages/slo-list-management/components/SLOTable.jsx:24-27 | The order on strings is transitive. |
| Text.StrLessTotal | src/pages/slo-list-management/components/SLOTable.jsx:24-27 | Of two different strings one is less than the other. |
| Text.StrLessAsymmetric | src/pages/slo-list-management/components/SLOTable.jsx:24-27 | Two strings are never each less than the other. |
| Text.SurrogateBeforeHalfwidth | src/pages/slo-list-management/components/SLOTable.jsx:24-27 | The order compares code units, not characters: U+1F600 sorts before U+FF61 although it is the larger character. |
| SloTable.InsertionSort | src/pages/slo-list-management/components/SLOTable.jsx:19-35 | The array ends sorted by the comparator, as a permutation of its old contents. |
| SloTable.SortedSlos | src/pages/slo-list-management/components/SLOTable.jsx:19-35 | With no sort key the order is unchanged. Otherwise the result is sorted and a permutation of the input. |
| SloTable.SelectAll | src/pages/slo-list-management/components/SLOTable.jsx:54-60 | Select-all checked gives every displayed id in display order; unchecked gives none. |
| SloTable.SelectOneChecked | src/pages/slo-list-management/components/SLOTable.jsx:62-68 | Checking a row appends exactly its id at the end. |
| SloTable.SelectOneUnchecked | src/pages/slo-list-management/components/SLOTable.jsx:62-68 | Unchecking removes every occurrence of the id and keeps the other ids in order. |
| SloTable.NeverBoth | src/pages/slo-list-management/components/SLOTable.jsx:71-72 | The select-all box is never both checked and indeterminate. |
| SloTable.SelectAllShows | src/pages/slo-list-management/components/SLOTable.jsx:54-72 | After select-all on a non-empty list the box shows checked; after select-all off it shows neither checked nor indeterminate. |
| SloTable.BadgeFor | src/pages/slo-list-management/components/SLOTable.jsx:37-52 | A status that is not healthy, warning or critical, and not an inherited `Object.prototype` name, gets the Unknown badge. An inherited name such as `constructor` finds a truthy value without fields: both classes print as "undefined" and the caption is empty. Every caption is one of the four or empty. |
| SloTable.Table.constructor | src/pages/slo-list-management/components/SLOTable.jsx:9 | The table starts with no sort key, ascending. |
| SloTable.Table.HandleSort | src/pages/slo-list-management/components/SLOTable.jsx:11-17 | The configuration becomes the next-sort rule applied to the old one. |
| SloTable.Table.Rows | src/pages/slo-list-management/components/SLOTable.jsx:19-35 | The rows are a permutation of the displayed records: in their order with no sort key, sorted by the configuration otherwise. |
| FilterToolbar.ApplyEditFrame | src/pages/slo-list-management/components/FilterToolbar.jsx:30-50 | An edit sets its own field to the edited value and leaves the other seven as they were. |
| FilterToolbar.MinTypedNumber | src/pages/slo-list-management/components/FilterToolbar.jsx:42-45 | Typing a whole number into the minimum sets that number (0 included). |
| FilterToolbar.MaxTypedNumber | src/pages/slo-list-management/components/FilterToolbar.jsx:47-50 | A positive whole number typed into the maximum is kept. Typing 0 or nothing gives 100. |
| FilterToolbar.ActiveIgnoresOwnerAndDates | src/pages/slo-list-management/components/FilterToolbar.jsx:52-53 | The owner and date fields never make the filters count as active. |
| FilterToolbar.InactiveShowsAll | src/pages/slo-list-management/components/FilterToolbar.jsx:52-53 | With no active filter and an empty owner, a list whose targets all lie in [0, 100] is displayed whole. |
| FilterToolbar.ResultsMessage | src/pages/slo-list-management/components/FilterToolbar.jsx:212-219 | A count of 0 reads "No SLOs found". |
| FilterToolbar.ResultsMessageCount | src/pages/slo-list-management/components/FilterToolbar.jsx:212-219 | A non-empty result reads "Showing " and then the count's digits, which read back as the count, then " SLO", with an "s" exactly when the count is not 1. |
| FilterToolbar.ServicePickEmptiesMock | src/pages/slo-list-management/components/FilterToolbar.jsx:10-20 | Choosing any service option other than "All Services" displays none of the initial records: the options are slugs and the records hold display names. |
| FilterToolbar.MockServicesCapitalised | src/pages/slo-list-management/index.jsx:17-114 | Every initial record's service starts with a capital letter. |
| FilterToolbar.StatusOptionsOccur | src/pages/slo-list-management/components/FilterToolbar.jsx:22-28 | Every non-empty status option is the status of some initial record. |
| FilterToolbar.Toolbar.constructor | src/pages/slo-list-management/components/FilterToolbar.jsx:8 | The advanced filters start hidden. |
| FilterToolbar.Toolbar.ToggleExpanded | src/pages/slo-list-management/components/FilterToolbar.jsx:94-105 | Both buttons flip whether the advanced filters are shown. |
| BulkActionBar.SelectionLabel | src/pages/slo-list-management/components/BulkActionBar.jsx:39 | The label starts with the count's digits and then " SLO", with an "s" exactly when the count is not 1. |
| BulkActionBar.ExecuteStep | src/pages/slo-list-management/components/BulkActionBar.jsx:18-23 | Execute hands over the chosen action, or nothing for the placeholder. The chooser afterwards shows the placeholder. |
| BulkActionBar.ExecuteOnce | src/pages/slo-list-management/components/BulkActionBar.jsx:18-23 | A second Execute right after the first hands over nothing. |
| BulkActionBar.Bar.constructor | src/pages/slo-list-management/components/BulkActionBar.jsx:7 | The chooser starts on the placeholder. |
| BulkActionBar.Bar.Choose | src/pages/slo-list-management/components/BulkActionBar.jsx:45-48 | The chooser holds the chosen listed value. |
| BulkActionBar.Bar.Execute | src/pages/slo-list-management/components/BulkActionBar.jsx:18-23 | Dispatches the chosen action if there is one, then resets the chooser to the placeholder. |
| SloListPage.QuickButtonsHandled | src/pages/slo-list-management/components/BulkActionBar.jsx:66-84 | The quick Export value reaches the page as the export action, which opens no confirmation. The quick Duplicate value reaches it as the duplicate action, which opens the confirmation that duplicates the whole selection. |
| ExportModal.OnNames | src/pages/slo-list-management/components/ExportModal.jsx:37-44 | There are as many exported names as flags that are on. |
| ExportModal.CountOnExtremes | src/pages/slo-list-management/components/ExportModal.jsx:102-111 | The count is the full length exactly when every flag is on, and 0 exactly when every flag is off. |
| ExportModal.CountOnFlip | src/pages/slo-list-management/components/ExportModal.jsx:30-35 | Flipping one flag moves the count by exactly one, up or down as the flag turned on or off. |
| ExportModal.OnNamesSelects | src/pages/slo-list-management/components/ExportModal.jsx:37-44 | The exported field names are a subsequence of the names in declaration order, and every field whose flag is on is among them. |
| ExportModal.DefaultExport | src/pages/slo-list-management/components/ExportModal.jsx:9-19 | With the initial flags, six fields are exported, name to lastModified. |
| ExportModal.Modal.constructor | src/pages/slo-list-management/components/ExportModal.jsx:8-19 | The dialog starts with CSV and the initial flags. |
| ExportModal.Modal.SetFormat | src/pages/slo-list-management/components/ExportModal.jsx:23-28 | The format becomes the chosen listed format, and the flags stay. |
| ExportModal.Modal.ToggleField | src/pages/slo-list-management/components/ExportModal.jsx:30-35 | Field `i`'s flag flips and no other changes. |
| ExportModal.Modal.ToggleAll | src/pages/slo-list-management/components/ExportModal.jsx:102-109 | All flags go off when all were on; otherwise all go on. |
| ExportModal.Modal.SelectedFieldsCount | src/pages/slo-list-management/components/ExportModal.jsx:46 | The number shown never exceeds the nine fields. |
| ExportModal.Modal.Export | src/pages/slo-list-management/components/ExportModal.jsx:37-44 | Hands over the format and the on-flag names, or nothing exactly when every flag is off (the disabled button, 152). |
| SloListPage.ParseActionKnown | src/pages/slo-list-management/index.jsx:207-253 | Exactly the five action strings are handled; any other falls to the default branch. |
| SloListPage.BarOptionsHandled | src/pages/slo-list-management/components/BulkActionBar.jsx:9-16 | Every value the action bar can dispatch is handled by the page. |
| SloListPage.PendingFor | src/pages/slo-list-management/index.jsx:213-248 | Duplicate, delete, enable and disable store their own action over the given ids. Export stores none. |
| SloListPage.ConfirmFor | src/pages/slo-list-management/index.jsx:207-253 | Export opens no confirmation; the other four open one holding their pending action. |
| SloListPage.DisplayedIdsKnown | src/pages/slo-list-management/index.jsx:144-183 | Every displayed record's id is the id of one of the page's records. |
| SloListPage.RunKeepsIdsOfKept | src/pages/slo-list-management/index.jsx:256-301 | A status change keeps every id, a duplicate keeps the old ids as a prefix, and a delete leaves no deleted id. |
| SloListPage.Page.constructor | src/pages/slo-list-management/index.jsx:117-141 | The page starts with the eight records, no selection, the default filters and both dialogs closed. |
| SloListPage.Page.ChangeFilters | src/pages/slo-list-management/index.jsx:186-189 | The new filters, an empty selection, and nothing else changed. |
| SloListPage.Page.ClearFilters | src/pages/slo-list-management/index.jsx:192-204 | The default filters, an empty selection, and nothing else changed. |
| SloListPage.Page.SelectAllDisplayed | src/pages/slo-list-management/components/SLOTable.jsx:54-60 | The selection becomes select-all over the displayed records. |
| SloListPage.Page.SelectRow | src/pages/slo-list-management/components/SLOTable.jsx:62-68 | The selection becomes the row rule applied to the old selection. |
| SloListPage.Page.ClearSelection | src/pages/slo-list-management/index.jsx:383 | The selection empties and nothing else changes. |
| SloListPage.Page.BulkAction | src/pages/slo-list-management/index.jsx:207-253 | A row's ids or else the selection are used. Export opens the export dialog; the other known actions open the confirmation dialog for their action; unknown actions change nothing. Records, selection and filters stay. |
| SloListPage.Page.Confirm | src/pages/slo-list-management/index.jsx:256-301 | The records become the stored action's result, the selection empties and the dialog closes. |
| SloListPage.Page.CloseConfirm | src/pages/slo-list-management/index.jsx:390 | The dialog closes and nothing else changes. |
| SloListPage.Page.Export | src/pages/slo-list-management/index.jsx:304-320 | Hands over the selected records in record order, with the dialog's format and fields. Then it clears the selection and closes the dialog. |
| SloListPage.Page.CloseExport | src/pages/slo-list-management/index.jsx:304-320 | The export dialog closes and nothing else changes. |
| CreateForm.BuildErrors | src/pages/create-new-slo/index.jsx:89-184 | The dictionary built by the thirteen checks in order is exactly one message per checked field whose rule fails. |
| CreateForm.CheckName | src/pages/create-new-slo/index.jsx:93-97 | The name's message is added when its rule fails; otherwise the dictionary is unchanged. |
| CreateForm.CheckDescription | src/pages/create-new-slo/index.jsx:99-103 | The same, for the description. |
| CreateForm.CheckService | src/pages/create-new-slo/index.jsx:105-107 | The same, for the service. |
| CreateForm.CheckComponent | src/pages/create-new-slo/index.jsx:109-111 | The same, for the component. |
| CreateForm.CheckMetricSource | src/pages/create-new-slo/index.jsx:114-116 | The same, for the metric source. |
| CreateForm.CheckMetricType | src/pages/create-new-slo/index.jsx:118-120 | The same, for the metric type. |
| CreateForm.CheckTarget | src/pages/create-new-slo/index.jsx:122-129 | The same, for the target value. |
| CreateForm.CheckWindow | src/pages/create-new-slo/index.jsx:131-133 | The same, for the evaluation window. |
| CreateForm.CheckQuery | src/pages/create-new-slo/index.jsx:135-137 | The same, for the metric query. |
| CreateForm.CheckAlerting | src/pages/create-new-slo/index.jsx:140-157 | Threshold, severity and channels are checked in that order, each only while alerting is on. |
| CreateForm.CheckBudget | src/pages/create-new-slo/index.jsx:160-165 | The same as the name's check, for the error budget. |
| CreateForm.CheckBurnRate | src/pages/create-new-slo/index.jsx:167-172 | The same, for the burn-rate threshold. |
| CreateForm.CheckUrl | src/pages/create-new-slo/index.jsx:174-180 | The same, for the documentation link. |
| CreateForm.ErrorsKeys | src/pages/create-new-slo/index.jsx:89-184 | A key is present exactly when its field is checked and its rule fails, and it holds that rule's message. |
| CreateForm.RankInverse | src/pages/create-new-slo/index.jsx:89-180 | The check order ranks every field once: ranks 0 to 14 are the checks from name to documentation URL, ranks 15 to 26 the unchecked fields, and the field of a field's rank is that field. |
| CreateForm.RankOfField | src/pages/create-new-slo/index.jsx:89-180 | Every rank below 27 belongs to exactly one field. |
| CreateForm.CheckedRanks | src/pages/create-new-slo/index.jsx:89-180 | A field is checked exactly when its rank is below 15. |
| CreateForm.RequiredRanks | src/pages/create-new-slo/index.jsx:93-137 | A field is required exactly when its rank is below 9: the required checks come first. |
| CreateForm.EmptyIffNoRuleFails | src/pages/create-new-slo/index.jsx:182-183 | The form is valid exactly when no checked rule fails. |
| CreateForm.AlertingOffNoAlertKeys | src/pages/create-new-slo/index.jsx:140 | With alerting off no alert key appears, whatever the alert fields hold. |
| CreateForm.AlertingOnEmptyAlertKeys | src/pages/create-new-slo/index.jsx:140-157 | With alerting on and the alert fields empty, all three alert keys appear. |
| CreateForm.ShortNameMessage | src/pages/create-new-slo/index.jsx:93-97 | A name that is not blank but shorter than 3 UTF-16 code units gets the length message. |
| CreateForm.NameLengthInCodeUnits | src/pages/create-new-slo/index.jsx:95 | The length counts code units: two characters above U+FFFF make a long enough name, and one does not. |
| CreateForm.BlankNameRequired | src/pages/create-new-slo/index.jsx:93-97 | A name of only white space gets "required", however long it is. |
| CreateForm.TargetMessages | src/pages/create-new-slo/index.jsx:122-129 | An empty target gets "required". A target that does not parse, or parses outside [0, 100], gets the range message. Anything else passes. |
| CreateForm.EmptyOptionalFieldsPass | src/pages/create-new-slo/index.jsx:160-180 | The budget, burn rate and link produce no key when left empty. |
| CreateForm.ClearFormErrors | src/pages/create-new-slo/index.jsx:89-184 | With every checked text empty and alerting off, exactly the nine required fields fail, each with "required". |
| CreateForm.DefaultFormErrors | src/pages/create-new-slo/index.jsx:20-55 | The initial form fails exactly the nine required fields. |
| CreateForm.RulesIndependent | src/pages/create-new-slo/index.jsx:89-184 | Editing one field changes no other field's rule, except that the alerting toggle affects the three alert rules. |
| CreateForm.SteadyRuleAgrees | src/pages/create-new-slo/index.jsx:140-157 | The steady rule (the alert rules read with alerting on) is the validator's rule, except on an alert field while alerting is off. |
| CreateForm.SteadyRuleLocal | src/pages/create-new-slo/index.jsx:89-184 | The steady rule of a field reads only that field. |
| CreateForm.CheckedPass | src/pages/create-new-slo/index.jsx:89-184 | No checked rule fails exactly when each of the fifteen field conditions holds. |
| CreateForm.NoErrorsIffAcceptable | src/pages/create-new-slo/index.jsx:89-184 | The dictionary is empty exactly for a form that meets the field-by-field acceptance conditions (every required field filled, alerting complete when on, every filled optional field well formed). |
| CreateSlo.LocalStorage.constructor | src/pages/create-new-slo/index.jsx:59-70 | The storage holds the given entries. |
| CreateSlo.LoadDraft | src/pages/create-new-slo/index.jsx:59-70 | A missing or unparseable draft opens the initial form. |
| CreateSlo.DraftRoundTrip | src/pages/create-new-slo/index.jsx:186-206 | A saved draft comes back unchanged when the page is opened again. |
| CreateSlo.RemovedDraftLoadsDefault | src/pages/create-new-slo/index.jsx:220 | Once the draft is removed the page opens with the initial form, and the other entries are untouched. |
| CreateSlo.CreatedMessage | src/pages/create-new-slo/index.jsx:223-228 | The success message holds the name between its quotes, and the name reads back from there. |
| CreateSlo.ValidatedSteady | src/pages/create-new-slo/index.jsx:89-184 | Right after a validation, every error shown is its field's steady-rule message. |
| CreateSlo.EditKeepsSteady | src/pages/create-new-slo/index.jsx:72-87 | Editing a field and dropping its error keeps every other shown error steady, even when the alerting toggle is flipped. |
| CreateSlo.SteadyErrorsCurrent | src/pages/create-new-slo/index.jsx:72-87 | Steady errors are what the validator would say now, for every field while alerting is on, and for the non-alert fields otherwise. |
| CreateSlo.Page.constructor | src/pages/create-new-slo/index.jsx:20-70 | The page opens with the stored draft or the initial form, no errors, no unsaved changes and no dialog. |
| CreateSlo.Page.FieldChange | src/pages/create-new-slo/index.jsx:72-87 | The field takes its value, its own error goes, and unsaved changes are marked. |
| CreateSlo.Page.Validate | src/pages/create-new-slo/index.jsx:89-184 | The shown errors become the validator's dictionary, and the result is true exactly for an acceptable form. |
| CreateSlo.Page.SaveDraft | src/pages/create-new-slo/index.jsx:186-206 | The form is stored under the draft key, reads back as the form, and clears unsaved changes. |
| CreateSlo.Page.CreateSlo | src/pages/create-new-slo/index.jsx:208-236 | An acceptable form removes the draft and goes to the list with the success message. Otherwise the storage and route stay. Either way the errors are the validator's. |
| CreateSlo.Page.Cancel | src/pages/create-new-slo/index.jsx:238-244 | With unsaved changes the dialog opens; without them the page goes to the list. |
| CreateSlo.Page.ContinueEditing | src/pages/create-new-slo/index.jsx:337 | The dialog closes and nothing else changes. |
| CreateSlo.Page.ConfirmCancel | src/pages/create-new-slo/index.jsx:246-249 | The draft is removed, so a reopened page shows the initial form, and the page goes to the list. |
| ValidationSummary.CompletedFields | src/pages/edit-slo/components/ValidationSummary.jsx:12-14 | Exactly the completed required fields, each at most once, in list order. |
| ValidationSummary.GetValidationStatus | src/pages/edit-slo/components/ValidationSummary.jsx:19-25 | There are nine fields in total. hasErrors holds exactly when the dictionary is non-empty. isComplete holds exactly when all nine are completed and there is no error. |
| ValidationSummary.CompletedCountIff | src/pages/edit-slo/components/ValidationSummary.jsx:12-17 | All nine are counted exactly when each required field is completed. A text field counts exactly when it is not blank once trimmed. |
| ValidationSummary.ProgressBounds | src/pages/edit-slo/components/ValidationSummary.jsx:24 | The progress lies in [0, 100] and is 100 exactly when all nine are completed. |
| ValidationSummary.DefaultFormIncomplete | src/pages/create-new-slo/index.jsx:20-55 | The initial form completes none of the nine. |
| ValidationSummary.StatusTone | src/pages/edit-slo/components/ValidationSummary.jsx:30-46 | The error tone appears exactly when there are errors. The success tone appears exactly when there are none and the form is complete. |
| ValidationSummary.StatusOnErrors | src/pages/edit-slo/components/ValidationSummary.jsx:30-46 | Any error gives the red cross and "Please fix validation errors". |
| ValidationSummary.StatusReady | src/pages/edit-slo/components/ValidationSummary.jsx:30-46 | No error and nine completed gives the green check and "Ready to create SLO". |
| ValidationSummary.StatusCounting | src/pages/edit-slo/components/ValidationSummary.jsx:30-46 | No error and fewer than nine completed gives the warning and the "n/9 required fields completed" line. |
| ValidationSummary.HumanizeLossless | src/pages/edit-slo/components/ValidationSummary.jsx:90 | Spacing out the capitals of a key loses nothing: removing those spaces gives the key back. |
| ValidationSummary.ErrorRowsFollowKeys | src/pages/edit-slo/components/ValidationSummary.jsx:87-92 | Row i is the i-th key in insertion order, holding that key's message. |
| ValidationSummary.ErrorRowsKeys | src/pages/edit-slo/components/ValidationSummary.jsx:87-92 | Every row is a key of the dictionary with its own message, and every key has a row. |
| ValidationSummary.ErrorRowsOrdered | src/pages/edit-slo/components/ValidationSummary.jsx:87-92 | The rows follow the order in which the validator writes its keys, name first and documentation URL last. |
| ValidationSummary.KeyOrderFacts | src/pages/create-new-slo/index.jsx:89-180 | The insertion order lists exactly the dictionary's keys, each once, in check order. |
| ValidationSummary.KeyOrderDelete | src/pages/create-new-slo/index.jsx:80-85 | Deleting one key, as a field change does, removes exactly that key from the order and leaves the others where they were. |
| ValidationSummary.ValidatorRowsChecked | src/pages/create-new-slo/index.jsx:89-182 | Every row of the validator's dictionary is one of the fifteen checked fields, so the rows come in check order. |
| ValidationSummary.DefaultFormRows | src/pages/edit-slo/components/ValidationSummary.jsx:87-92 | The untouched form lists nine rows: name, description, service, component, metric source, metric type, target value, evaluation window, metric query. |
| ValidationSummary.RequiredRows | src/pages/edit-slo/components/ValidationSummary.jsx:87-92 | A dictionary holding exactly the nine required keys is listed in their check order. |
| ValidationSummary.RanksAreIndices | src/pages/edit-slo/components/ValidationSummary.jsx:87-92 | Fields in check order whose ranks all fall below their count take the ranks 0, 1, 2 and so on in turn. |
| ValidationSummary.ErrorRowsCount | src/pages/edit-slo/components/ValidationSummary.jsx:78-93 | The list has one row per key and is empty exactly when there is no error. |
| SloEditForm.Read | src/pages/login/components/SLOEditForm.jsx:9-19 | Each field reads as an input of its widget's kind. |
| SloEditForm.Write | src/pages/login/components/SLOEditForm.jsx:58-72 | Writing a field makes it read as the new value, and every other field reads as before. |
| SloEditForm.ToDoc | src/pages/login/components/SLOEditForm.jsx:118-123 | The handed-over record has exactly the nine form properties. |
| SloEditForm.RecordRoundTrip | src/pages/login/components/SLOEditForm.jsx:9-19 | A form saved as a record and opened again reads back unchanged, whatever else the record gains. |
| SloEditForm.BuildErrors | src/pages/login/components/SLOEditForm.jsx:74-116 | The dictionary built by the eight checks in order is exactly one message per checked field whose rule fails. |
| SloEditForm.CheckName | src/pages/login/components/SLOEditForm.jsx:77-79 | The name's message is added when its rule fails; otherwise the dictionary is unchanged. |
| SloEditForm.CheckDescription | src/pages/login/components/SLOEditForm.jsx:81-83 | The same, for the description. |
| SloEditForm.CheckService | src/pages/login/components/SLOEditForm.jsx:85-87 | The same, for the service. |
| SloEditForm.CheckMetricSource | src/pages/login/components/SLOEditForm.jsx:89-91 | The same, for the metric source. |
| SloEditForm.CheckThreshold | src/pages/login/components/SLOEditForm.jsx:93-100 | The same, for the target threshold. |
| SloEditForm.CheckWindow | src/pages/login/components/SLOEditForm.jsx:102-104 | The same, for the evaluation window. |
| SloEditForm.CheckAlertThreshold | src/pages/login/components/SLOEditForm.jsx:106-108 | The same, for the alert threshold, only while alerting is on. |
| SloEditForm.CheckChannels | src/pages/login/components/SLOEditForm.jsx:110-112 | The same, for the channels, only while alerting is on. |
| SloEditForm.EditErrorsKeys | src/pages/login/components/SLOEditForm.jsx:74-116 | A key is present exactly when its field is checked and its rule fails, and it holds that rule's message. |
| SloEditForm.NoNameMinimum | src/pages/login/components/SLOEditForm.jsx:77-79 | Any name that is not blank passes: there is no minimum length. |
| SloEditForm.AlertThresholdUnranged | src/pages/login/components/SLOEditForm.jsx:106-108 | With alerting on, any non-empty alert threshold passes, whatever it parses to. |
| SloEditForm.AlertingOffNoAlertKeys | src/pages/login/components/SLOEditForm.jsx:106-112 | With alerting off neither alert key appears. |
| SloEditForm.ThresholdMessages | src/pages/login/components/SLOEditForm.jsx:93-100 | An empty threshold gets "required". One that does not parse, or parses outside [0, 100], gets the range message. Anything else passes. |
| SloEditForm.NoEditErrorsIffAcceptable | src/pages/login/components/SLOEditForm.jsx:114-115 | The dictionary is empty exactly for a form meeting the field-by-field acceptance conditions. |
| SloEditForm.ShowAll | src/pages/login/components/SLOEditForm.jsx:114 | Every failing field shows its message, and no other key is present. |
| SloEditForm.ValidatedSteady | src/pages/login/components/SLOEditForm.jsx:74-116 | Right after a validation, each shown message is its field's steady-rule message. |
| SloEditForm.EditKeepsSteady | src/pages/login/components/SLOEditForm.jsx:58-72 | An edit followed by blanking that field's message keeps the other shown messages steady. |
| SloEditForm.ClearOne | src/pages/login/components/SLOEditForm.jsx:66-71 | Only a showing message is blanked. The key stays, and every other entry is unchanged. |
| SloEditForm.Form.constructor | src/pages/login/components/SLOEditForm.jsx:9-22 | The form opens from the record, with no errors and no changes. |
| SloEditForm.Form.InputChange | src/pages/login/components/SLOEditForm.jsx:58-72 | The field takes the value, changes are marked, and that field's message is blanked. |
| SloEditForm.Form.Validate | src/pages/login/components/SLOEditForm.jsx:74-116 | The shown errors become the validator's messages, and the result is true exactly for an acceptable form. |
| SloEditForm.Form.Submit | src/pages/login/components/SLOEditForm.jsx:118-123 | The form's record is handed over exactly when the form is acceptable. |
| SloEditForm.Form.SaveAsNew | src/pages/login/components/SLOEditForm.jsx:125-129 | The same record with `saveAsNew: true`, exactly when the form is acceptable. |
| EditSlo.SloIdFrom | src/pages/login/index.jsx:15 | A present, non-empty id is used; otherwise the default id. |
| EditSlo.SavedKeeps | src/pages/login/index.jsx:72-76 | A save keeps every pending property except the stamp and the version, and adds those two. |
| EditSlo.SavedTwice | src/pages/login/index.jsx:72-76 | Saving the saved record again changes only its stamp. |
| EditSlo.VersionOfForms | src/pages/login/index.jsx:72-76 | The form's plain save writes 1.4.1, and "Save as New Version" writes 1.5. |
| EditSlo.DialogMatchesVersion | src/pages/login/index.jsx:72-76 | The dialog's confirm button reads "Create New Version" exactly when the save will write 1.5, and "Save Changes" exactly when it will write 1.4.1. |
| EditSlo.Page.constructor | src/pages/login/index.jsx:15-23 | The page opens on the address's id, with nothing loaded and the spinner shown. |
| EditSlo.Page.Load | src/pages/login/index.jsx:43-52 | The mock record fills all three copies and the spinner goes. |
| EditSlo.Page.Save | src/pages/login/index.jsx:58-61 | The form's record becomes pending and the dialog opens. |
| EditSlo.Page.CloseDialog | src/pages/login/index.jsx:63-90 | The dialog closes and the pending record is kept. |
| EditSlo.Page.ConfirmSave | src/pages/login/index.jsx:63-90 | The pending record, stamped and versioned, becomes all three copies. The dialog closes, nothing is pending, and the page goes to the list. |
| EditSlo.Page.Cancel | src/pages/login/index.jsx:92-100 | The page never asks, because the current data never differs from the original, and leaves for the list. |
| EditSlo.Page.ViewDetails | src/pages/login/index.jsx:140 | The page goes to the details page of the same id. |
| ChangeImpact.TargetImpact | src/pages/login/components/ChangeImpactIndicator.jsx:18-30 | A threshold change is high exactly when the parsed values differ by more than 1, medium exactly when by more than 0.5 and at most 1, and low otherwise. A value that does not parse gives low, because the difference is `NaN`. |
| ChangeImpact.AllWatchedComplete | src/pages/login/components/ChangeImpactIndicator.jsx:5-63 | Every watched property is among the five in the panel's order. |
| ChangeImpact.GetChanges | src/pages/login/components/ChangeImpactIndicator.jsx:5-63 | The five conditional pushes give exactly the reference list: one entry per watched property that differs, in order. |
| ChangeImpact.ChangesOverSpec | src/pages/login/components/ChangeImpactIndicator.jsx:5-63 | An entry is listed exactly for each watched property that differs, and it carries its own property. |
| ChangeImpact.ChangesBounds | src/pages/login/components/ChangeImpactIndicator.jsx:5-69 | At most five entries; none exactly when all five properties agree, which hides the panel. |
| ChangeImpact.NoChangesSelf | src/pages/login/components/ChangeImpactIndicator.jsx:65-69 | A record compared with itself lists nothing. |
| ChangeImpact.ChangesInOrder | src/pages/login/components/ChangeImpactIndicator.jsx:5-63 | The entries' properties form a subsequence of the watched order. |
| ChangeImpact.FixedImpacts | src/pages/login/components/ChangeImpactIndicator.jsx:8-60 | A name change is low, a window change medium, a source change high, and an alerting change medium. An alerting entry reads "enabled" or "disabled" after the new value, and every other entry reads "modified". |
| ChangeImpact.SameNumberLow | src/pages/login/components/ChangeImpactIndicator.jsx:18-30 | Two thresholds that parse to the same number, however they are written, are a low-impact change. |
| ChangeImpact.Impacts | src/pages/login/components/ChangeImpactIndicator.jsx:97-102 | One level per entry, in order. |
| ChangeImpact.OverallImpact | src/pages/login/components/ChangeImpactIndicator.jsx:97-102 | The overall impact is the greatest entry impact, and low for no entries. |
| ChangeImpact.SourceChangeIsHigh | src/pages/login/components/ChangeImpactIndicator.jsx:42-50 | A metric-source change always makes the overall impact high. |
| Impact.Max | src/pages/login/components/ChangeImpactIndicator.jsx:97-102 | The greatest level: it is one of the given levels, no level exceeds it, and it is low for none. |
| Impact.DominantIsMax | src/pages/login/components/ChangeImpactIndicator.jsx:97-102 | The "high if any high, else medium if any medium, else low" rule is the maximum under low < medium < high. |
| DependencyChecker.Count | src/pages/login/components/DependencyChecker.jsx:65-66 | The count is at most the number of systems, and positive exactly when some system has that impact. |
| DependencyChecker.CountedIffPresent | src/pages/login/components/DependencyChecker.jsx:65-74 | A level's count is positive exactly when some system has that impact. |
| DependencyChecker.ImpactFromIsMax | src/pages/login/components/DependencyChecker.jsx:68-74 | The level the effect sets is the greatest of the systems' impacts. |
| DependencyChecker.MockIsHigh | src/pages/login/components/DependencyChecker.jsx:11-56 | With the four mock systems the panel reports high impact. |
| DependencyChecker.Checker.constructor | src/pages/login/components/DependencyChecker.jsx:6-8 | The panel starts with no systems, not loading and low impact. |
| DependencyChecker.Checker.Start | src/pages/login/components/DependencyChecker.jsx:58-60 | Loading starts, and the list and level are kept. |
| DependencyChecker.Checker.Finish | src/pages/login/components/DependencyChecker.jsx:62-77 | The list is the systems found, the level is their greatest impact, and loading ends. |
| DependencyChecker.RecommendationsIffHigh | src/pages/login/components/DependencyChecker.jsx:251 | The recommendations appear exactly when some connected system has high impact. |
| DependencyChecker.LookupFallbacks | src/pages/login/components/DependencyChecker.jsx:106-132 | Exactly an unknown relationship reads "Connected to", and exactly an unknown kind shows a link. |
| DependencyChecker.MockCaptionsKnown | src/pages/login/components/DependencyChecker.jsx:11-56 | Every mock system has a known relationship and kind. |
| ActivityTimeline.Filtered | src/pages/slo-details/components/ActivityTimeline.jsx:41-48 | Every shown activity is one of the activities and passes the tab's test, and every activity passing the test is shown. |
| ActivityTimeline.KeepAllTabs | src/pages/slo-details/components/ActivityTimeline.jsx:41-48 | The "all" tab and any unknown tab show the activities unchanged. |
| ActivityTimeline.FilteredInOrder | src/pages/slo-details/components/ActivityTimeline.jsx:41-48 | Every tab keeps the activities' order, dropping some and adding none. |
| ActivityTimeline.FilteredIdempotent | src/pages/slo-details/components/ActivityTimeline.jsx:41-48 | Applying the same tab twice changes nothing. |
| ActivityTimeline.CategoriesDisjoint | src/pages/slo-details/components/ActivityTimeline.jsx:10-15 | No activity is shown under two category tabs. |
| ActivityTimeline.UnknownKindFallback | src/pages/slo-details/components/ActivityTimeline.jsx:17-39 | Exactly a type outside the six known types gets the clock icon and the muted colour. |
| ActivityTimeline.ConnectorsBetween | src/pages/slo-details/components/ActivityTimeline.jsx:96 | Of the shown items every one but the last has a connector. |
| ActivityTimeline.CategoryShown | src/pages/slo-details/components/ActivityTimeline.jsx:150-157 | A tab over some activity of its category never shows the empty state. |
| ActivityTimeline.Timeline.constructor | src/pages/slo-details/components/ActivityTimeline.jsx:7-8 | The timeline starts on "all", open. |
| ActivityTimeline.Timeline.SetFilter | src/pages/slo-details/components/ActivityTimeline.jsx:78 | The tab becomes the chosen listed tab and the body stays as it was. |
| ActivityTimeline.Timeline.Toggle | src/pages/slo-details/components/ActivityTimeline.jsx:61 | The body opens or closes and the tab stays. |
| VersionHistory.Visible | src/pages/login/components/VersionHistory.jsx:105 | Open shows everything. Closed shows the first three, or all of a shorter list. Either way it is a prefix. |
| VersionHistory.NoToggleShowsAll | src/pages/login/components/VersionHistory.jsx:198 | Without the toggle, which needs more than three versions, every version is shown. |
| VersionHistory.ToggleHides | src/pages/login/components/VersionHistory.jsx:105-208 | With the toggle, closing hides exactly the versions after the third. |
| VersionHistory.MockPanel | src/pages/login/components/VersionHistory.jsx:8-79 | Five versions: the toggle reads "Show 2 More Versions" while closed and "Show Less" while open, the count reads "5 versions", and the newest is current. |
| VersionHistory.Panel.constructor | src/pages/login/components/VersionHistory.jsx:6 | The panel starts closed. |
| VersionHistory.Panel.Toggle | src/pages/login/components/VersionHistory.jsx:202 | The panel opens or closes. |
| Breadcrumb.TrailShape | src/components/ui/Breadcrumb.jsx:11-36 | An unknown path has no trail. A known one starts at the dashboard and ends at that path. |
| Breadcrumb.SloPagesUnderList | src/components/ui/Breadcrumb.jsx:11-34 | The list, create, edit and details pages have the SLO list second, and every page but the list ends one step below it. |
| Breadcrumb.RenderedPaths | src/components/ui/Breadcrumb.jsx:41-43 | The dashboard and unknown paths render nothing; every other known path renders its trail. |
| Breadcrumb.RenderedEnds | src/components/ui/Breadcrumb.jsx:49-61 | A rendered trail starts with a link to the dashboard without a chevron, and ends with the current page as plain text. |
| Header.ActiveItems | src/components/ui/Header.jsx:17-22 | The SLOs item is active on its four pages and the dashboard item on its own page only, never both together. |
| Header.OtherItemsExact | src/components/ui/Header.jsx:17-22 | Any path other than the SLOs item's is active exactly on itself. |
| Header.UnreadCount | src/components/ui/Header.jsx:30 | The count is at most the number of notifications, and positive exactly when some notification is an error. |
| Header.MockUnread | src/components/ui/Header.jsx:24-30 | The three notifications hold one error, so the badge shows 1. |
| Header.Bar.constructor | src/components/ui/Header.jsx:8-10 | Everything starts closed. |
| Header.Bar.ToggleNotifications | src/components/ui/Header.jsx:68 | The notification list opens or closes, and the menus stay. |
| Header.Bar.ToggleProfile | src/components/ui/Header.jsx:114 | The profile menu opens or closes, and the rest stays. |
| Header.Bar.ToggleMobileMenu | src/components/ui/Header.jsx:155 | The mobile menu opens or closes, and the rest stays. |
| Header.Bar.ChooseMobileLink | src/components/ui/Header.jsx:169 | A mobile link closes the mobile menu only. |

## Left out

- Timers and `async`/`await`: the create page's draft-save and create delays (`src/pages/create-new-slo/index.jsx`, lines 194 and 217), the edit page's load and save delays (`src/pages/login/index.jsx`, lines 46 and 69) and the dependency check's delay (`src/pages/login/components/DependencyChecker.jsx`, line 61). Each handler runs as one atomic step once its delay is over, and the spinners in between are not modelled. The one exception is the dependency checker, whose loading flag is modelled by `Start`/`Finish`.
- `DependencyChecker.Checker.Finish`: takes the systems found as a parameter. The source always finds the same four mock systems; `MockIsHigh` covers that case.
- Clocks: `Date.now()`, `new Date()` and `toLocaleDateString` are parameters (`now`, `today`). Where the source reads the clock once per record (a duplicate's copies, a status change's records), the parameter is a function of the record's position, so each reading may differ. The readings are not assumed to increase. Timestamp formatting for display (`formatTimestamp`, `toLocaleString`) is left out.
- `JSON.stringify`/`JSON.parse` of the draft: a stored string is either a form's JSON text or text the parser rejects. Text that parses to something other than a form is not modelled.
- `CreateSlo.LoadDraft`: a parsed draft replaces the form as it is. A draft with a field missing or of the wrong kind reads as empty or false elsewhere in the model, and a truthy non-boolean alerting value is not modelled.
- The `catch` branch of the create handler (230-232) is left out: nothing in the modelled body can throw.
- `handleFormDataChange` on the edit page (54-56) is left out: the edit form never calls `onFormDataChange`. The invariant `EditSlo.Page.Valid` records that the current data therefore always equals the original.
- `SloEditForm.Rule`: the form always holds a list of channels. `src/pages/login/components/SLOEditForm.jsx` line 110 reads `notificationChannels?.length === 0`, so an `undefined` list compares `undefined` with 0. That is false: nothing throws and the channels error is simply not recorded. The model has no `undefined` list, so it does not cover this case.
- `SloRecords.Duplicate`: requires every id to name a record. For a missing id the source would add a copy named "undefined (Copy)". The page invariant `SloListPage.Page.Valid` keeps every selected and pending id known, so the page never reaches that case.
- `window.location.reload()`, which only the list page's Refresh button calls (`src/pages/slo-list-management/index.jsx`, line 343), is left out, as is the navigation `state`'s rendering on the pages it goes to.
- Captions and styling: class names, icons and the dialog captions are plain functions, with no contract of their own except where a lemma states a fallback or a priority. The toolbar's date inputs are kept only as filter fields.
- The export dialog's size estimate (`ExportModal.jsx:137`), its `console.log`, and the download of the file the export handler would produce are left out.
- `toLowerCase` is modelled for the ASCII letters only. There is no Unicode case mapping.
- `Text.ParseFloat`: yields the exact decimal its prefix denotes, not the IEEE-754 double nearest to it, and does not read `Infinity`. Results therefore differ from the browser's wherever rounding crosses a comparison boundary. One example is "100.00000000000000001", which the browser reads as 100.
- `Runtime.Browser`: its `parseFloat` is `Text.ParseFloat`, with the same exact-decimal gap.
- `CreateForm.TargetMessages`: the range test sees the exact decimal. So "100.00000000000000001" gets the range message here, while the browser rounds it to 100 and lets it pass. The create page's other number rules (threshold, budget, burn rate) share this gap. The parser also does not read `Infinity`, and this changes the burn-rate rule. The browser reads "Infinity" as a number that is not negative, so it passes. Here it does not parse, so it gets the burn-rate message. For the target, threshold and budget rules, "Infinity" and "-Infinity" get the range message both here and in the browser.
- `SloEditForm.ThresholdMessages`: the same exact-decimal gap as `CreateForm.TargetMessages`.
- `ChangeImpact.TargetImpact`: the difference is taken exactly, not in doubles. A change from "1.2" to "2.2" is medium here. The browser's difference is 1.0000000000000002, so there it is high.
- `FilterToolbar.MinTypedNumber`: holds for whole numbers up to 2^53. A larger number is rounded to a double by the browser, for example 9007199254740993 to 9007199254740992.
- `FilterToolbar.MaxTypedNumber`: the same rounding gap for whole numbers above 2^53.
- `Breadcrumb.TrailShape`: "an unknown path has no trail" is stated for every string. The source's object lookup would find an inherited `Object.prototype` name such as `constructor`, but a pathname always starts with "/" and no inherited name does. (`SloTable.BadgeFor`, whose key is a record's status, does model that lookup, for the twelve names standard `Object.prototype` has.)
- `new URL` is an abstract test (`isUrl`).
- `SloTable.InsertionSort`: proves the order and the permutation, not the stability of `Array.prototype.sort`. Records that compare equal may come out in another order than the browser's sort gives.
- The details, dashboard and other pages that only render mock data are not part of this model.
