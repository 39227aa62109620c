# Process-improvement editor: a verified model of its document logic

The editor keeps one process-improvement document in memory. The document has:
- a title and framing texts;
- a start node and an end node, each holding cards;
- a list of process steps, each with its scenarios, user cards (each with up
  to five user stories) and interview notes;
- deliverables that link to stories by id;
- the items of a DEIP diagram (policies, inputs, outputs, resources).

Every editor in the UI is a small, sequential update of that document:
- append a fresh record with default fields;
- patch or replace the record whose id matches, or the record at an index;
- delete by id or by index;
- add a trimmed line only when it is not blank;
- toggle a flag or a story link;
- drag a step to a new place.

The same document is exported in several forms:
- a CSV report, one row per user story;
- a three-sheet spreadsheet;
- a single continuous PDF page, whose height is estimated up front;
- a JSON file, which can be imported again only if it passes a structural
  check.

The model has one Dafny module per source file or concern:

| module | models |
|---|---|
| `ProcessTypes` | the document's types, the closed enumerations and their names, and the "set one top-level field" update |
| `ListOps`, `Text`, `Wrappers` | shared list operations (filter, map-where, remove-at, `arrayMove`), `trim`, `replace(/\s+/g, '_')`, decimal numerals, `Option` |
| `ProcessJson` | JSON values, the import check `validateProcessJson`, and a document written as JSON |
| `ExportRows`, `CsvExport`, `CsvText` | the step summary row, the report file name, the CSV rows built by the nested loops, and the CSV text with its quoting |
| `XlsxExport`, `StoryIndex` | the three spreadsheet sheets and the step → card → story traversal |
| `PdfLayout` | the PDF page height |
| `App` | the application state (`data`, selection, panel, notification) and its handlers, as a class |
| `EditableText` | the inline editor's state machine, as a transition function and as a class |
| one module per component | the component's list edits, and as a class its input or toggle state where it has one (all but DeliverableCard's `isLinking`, see below) |

Handlers that hand a new document or list to their parent (`onUpdate(...)`)
are modelled as functions returning the emitted value. Handlers that keep
React state (`useState`) are methods of a class whose fields are that state.
Values the program takes from the environment are parameters:
- `generateId()` is `freshId`;
- `new Date().toISOString()` is `isoNow`;
- `toLocaleString()` is `updated`;
- `confirm(...)` is `confirmed`;
- the outcome of reading and `JSON.parse` is `ImportResult`;
- the result of `ensureCompatibleData` is `migrated`.

## Model

| member | source | states |
|---|---|---|
| ProcessTypes.ParsePriority | types/process.ts:2 | a priority text is accepted exactly when it is one of the three names, and it maps back to that name |
| ProcessTypes.PriorityNameRoundTrip | types/process.ts:2 | each of the three priorities is recovered from its name |
| ProcessTypes.ParseCategory | types/process.ts:57 | a category text is accepted exactly when it is one of the four names, and it maps back to that name |
| ProcessTypes.CategoryNameRoundTrip | types/process.ts:57 | each of the four categories is recovered from its name |
| ProcessTypes.WithField | types/process.ts:73-99 | setting one top-level field gives that field the new value and leaves every other field of the document as it was |
| ProcessTypes.WithFieldDetermined | types/process.ts:73-99 | any document that has the new value and agrees elsewhere is exactly the updated document |
| ProcessTypes.WithFieldSameValue | types/process.ts:73-99 | setting a field to the value it already holds changes nothing |
| ListOps.Filter | App.tsx:117 | `filter` keeps exactly the elements that pass the test and never lengthens the list |
| ListOps.FilterAppend | App.tsx:117 | filtering distributes over concatenation, so the kept elements stay in their order |
| ListOps.FilterPartition | components/ProcessTable.tsx:75-79 | a test and its negation split a list: the two parts together are the list as a multiset |
| ListOps.FilterNoDuplicates | components/DeliverableCard.tsx:41-46 | filtering a list without duplicates leaves one without duplicates |
| ListOps.MapWhere | App.tsx:125 | `map(x => p(x) ? f(x) : x)` keeps the length, changes the matching positions to `f` of them and leaves the others |
| ListOps.MapWhereNoMatch | App.tsx:125 | when nothing matches, the map returns the list unchanged |
| ListOps.RemoveAt | components/StepDetails.tsx:39-41 | `filter((_, i) => i !== index)` drops exactly the element at a valid index, keeps the rest in order, and changes nothing for an index out of range |
| ListOps.FindIndex | components/ProcessTable.tsx:42-43 | `findIndex` gives the first position that matches, or -1 exactly when none does |
| ListOps.Find | App.tsx:169 | `find` gives the element at the first match, or nothing exactly when no element matches |
| ListOps.ArrayMove | components/Timeline.tsx:154 | `arrayMove` keeps the length and the elements, puts the moved element at the target index, and keeps the other elements in their relative order |
| ListOps.InsertAt | components/Timeline.tsx:154 | inserting puts the element at the index and removing it there again gives the list back |
| ListOps.ArrayMoveBack | components/Timeline.tsx:154 | moving an element back to where it came from restores the list |
| ListOps.CopyWithAt | components/ProcessTable.tsx:62-65 | copying the list and assigning one index changes that position only |
| Text.TrimStart | components/StepDetails.tsx:29 | the leading whitespace removed is all whitespace, and what remains starts with a non-space |
| Text.TrimEnd | components/StepDetails.tsx:29 | the trailing whitespace removed is all whitespace, and what remains ends with a non-space |
| Text.Trim | components/StepDetails.tsx:29 | `trim()` is empty exactly for an all-whitespace text; otherwise it starts and ends with a non-space, and it is a contiguous slice of the input with only whitespace before and after it |
| Text.TrimBlank | components/StepDetails.tsx:29 | trimming in two steps gives the empty text exactly for an all-whitespace input |
| Text.TrimIdempotent | components/StepDetails.tsx:29 | trimming twice is trimming once |
| Text.OrElse | utils/exportUtils.ts:89-90 | `s \|\| d` is `s` when it is not empty and `d` otherwise |
| Text.ReplaceSpaceRuns | utils/exportUtils.ts:99 | `replace(/\s+/g, '_')` leaves no whitespace and never lengthens the text |
| Text.ReplaceSpaceRunsNoSpace | utils/exportUtils.ts:99 | a text without whitespace is left as it is |
| Text.ReplaceSpaceRunsRun | utils/exportUtils.ts:99 | a whole run of whitespace becomes exactly one `_` |
| Text.BeforeFirst | components/StepDetails.tsx:117 | `split(c)[0]` is the longest prefix without `c`, and it stops at the first `c` |
| Text.NatToString | utils/exportUtils.ts:130 | `String(n)` is a non-empty text of digits without a leading zero |
| Text.NatToStringRoundTrip | utils/exportUtils.ts:130 | the digits of `String(n)` read back as `n` |
| ProcessJson.TypeOf | utils/exportUtils.ts:50 | `typeof` says "object" exactly for `null`, arrays and objects |
| ProcessJson.Property | utils/exportUtils.ts:50 | reading a property gives the object's own entry, or `undefined` when it is missing or the value is not an object |
| ProcessJson.Validate | utils/exportUtils.ts:49-51 | a value that passes the import check is an object with `steps` and `title` entries |
| ProcessJson.ValidateExactly | utils/exportUtils.ts:49-51 | the import check holds exactly for an object whose `steps` is an array and whose `title` is a string |
| ProcessJson.ValidateRejects | utils/exportUtils.ts:49-51 | `null`, `undefined`, `{}`, texts and arrays are all refused |
| ProcessJson.DocumentJson | types/process.ts:73-99 | a written document carries its title, and carries `steps` exactly when the document has its optional step list |
| ProcessJson.SavedDocumentValid | utils/exportUtils.ts:49-51 | a saved document passes the import check exactly when it has its `steps` list |
| ExportRows.CellText | utils/exportUtils.ts:130 | `String(cell)` is the text itself, or for an order number a digit string that reads back as the number |
| ExportRows.StepSummary | utils/exportUtils.ts:106-113 | the five step cells are the 1-based position, the name, the current scenario, and either the future scenario with "Com Melhoria" or "MANTER PROCESSO ATUAL" with "Sem Alteração" |
| ExportRows.StatusDistinguishes | utils/exportUtils.ts:112 | two steps get the same status cell exactly when their improvement flags agree |
| ExportRows.ReportFileName | utils/exportUtils.ts:135 | the file name is "RELATORIO_", the title with each whitespace run replaced, a dot and the extension, and its middle holds no whitespace |
| ExportRows.WordsJoined | utils/exportUtils.ts:99 | two words separated by a single whitespace character are joined by one `_` |
| CsvExport.CardRows | utils/exportUtils.ts:118-124 | a card contributes one row per story, or a single row when it has none |
| CsvExport.StoryRow | utils/exportUtils.ts:121-123 | a story's row is the step's cells followed by three more |
| CsvExport.StoryRowCells | utils/exportUtils.ts:121-123 | a story's row holds the step's cells, then the user's name, the priority's name and the story's text |
| CsvExport.StepRows | utils/exportUtils.ts:106-126 | a step always has at least one row: one per story of each card, a card without stories counting one, or a single row without cards |
| CsvExport.Rows | utils/exportUtils.ts:102-128 | the table starts with the header, and has at least one row per step and one per story after it |
| CsvExport.BuildRows | utils/exportUtils.ts:102-128 | the rows pushed by the nested loops are the header followed by each step's rows, in order |
| CsvExport.PushStepRows | utils/exportUtils.ts:106-126 | the rows pushed for one step are one row when it has no cards, and otherwise each card's rows in order |
| CsvExport.PushCardRows | utils/exportUtils.ts:118-124 | the rows pushed for one card are one per story, or the name row when it has no stories |
| CsvExport.RowsWidth | utils/exportUtils.ts:104-126 | every row, the header included, has exactly 8 cells |
| CsvExport.StepRowsShape | utils/exportUtils.ts:107-126 | every row of a step has 8 cells and starts with that step's five summary cells |
| CsvExport.RowCount | utils/exportUtils.ts:104-128 | the number of rows is 1 plus the sum over steps of max(1, the sum over cards of max(1, number of stories)) |
| CsvExport.RowCountBounds | utils/exportUtils.ts:106-128 | there are at least as many data rows as steps, and at least as many as stories |
| CsvExport.StoryRowPresent | utils/exportUtils.ts:121-123 | every story of every card of every step has its row, with the step's cells, the user's name, the priority and the text |
| CsvExport.StepRowsInStepsRows | utils/exportUtils.ts:106-127 | all rows of a step appear in the report |
| CsvExport.StepWithoutCards | utils/exportUtils.ts:115-116 | a step without cards has a row ending in three empty cells |
| CsvExport.CardWithoutStories | utils/exportUtils.ts:119-120 | a card without stories has a row holding the user's name and two empty cells |
| CsvExport.TextRows | utils/exportUtils.ts:130 | each cell is turned into text with `String(cell)`, keeping the shape of the rows |
| CsvExport.CsvContent | utils/exportUtils.ts:130 | reading the CSV text as RFC 4180 prescribes gives back exactly the rows' texts |
| CsvText.Escape | utils/exportUtils.ts:130 | doubling the quotes never shortens a text |
| CsvText.Quote | utils/exportUtils.ts:130 | a quoted cell starts and ends with a double quote |
| CsvText.Line | utils/exportUtils.ts:130 | a line is empty exactly when it has no cells, and otherwise starts and ends with a double quote |
| CsvText.Content | utils/exportUtils.ts:130 | the text starts with a double quote when its first row has cells, and ends with one when its last row has cells |
| CsvText.ReadQuoted | utils/exportUtils.ts:130 | reading a quoted field always consumes input, so reading a whole text ends |
| CsvText.ReadEscaped | utils/exportUtils.ts:130 | collapsing `""` up to the closing quote gives the cell back, and reading stops right after that quote |
| CsvText.QuoteRoundTrip | utils/exportUtils.ts:130 | stripping the outer quotes and collapsing `""` recovers any cell, including one with quotes, commas or line breaks |
| CsvText.LineRoundTrip | utils/exportUtils.ts:130 | a line of cells joined by `,` reads back as exactly those cells |
| CsvText.ContentRoundTrip | utils/exportUtils.ts:130 | lines joined by `\n` read back as exactly those rows |
| XlsxExport.InfoSheet | utils/exportUtils.ts:57-65 | the summary sheet has seven rows, starting with its title row and an empty row |
| XlsxExport.Labelled | utils/exportUtils.ts:57-65 | a value found next to a label comes from a two-cell row with that label |
| XlsxExport.InfoSheetReadsBack | utils/exportUtils.ts:57-65 | the rows labelled Título, Tema, Setores, Gestores and Última Atualização show the title, theme, sectors, managers and update time |
| XlsxExport.StepsSheet | utils/exportUtils.ts:70-78 | the steps sheet is its header followed by one summary row per step, in order |
| XlsxExport.StepsSheetRows | utils/exportUtils.ts:71-77 | the row of step i is numbered i + 1, shows the step's name, and shows the future column chosen by the improvement flag |
| XlsxExport.StepsSheetAgreesWithCsv | utils/exportUtils.ts:70-77 | every CSV row of a step begins with that step's row of the steps sheet |
| XlsxExport.StoryLine | utils/exportUtils.ts:87-92 | a story's line shows the step's name or "Etapa sem nome", the user's name or "Não especificado", the priority and the text |
| XlsxExport.BuildStoriesSheet | utils/exportUtils.ts:82-95 | the loops produce the header and one line per story in step, card, story order, and nothing else |
| XlsxExport.StoryLinePresent | utils/exportUtils.ts:84-94 | every story of the process has its line in the sheet |
| XlsxExport.StoryLineNamesNonEmpty | utils/exportUtils.ts:88-89 | the step and user columns are never blank |
| XlsxExport.StorylessStepNoLines | utils/exportUtils.ts:84-94 | a step whose cards hold no stories has no line: the sheet is the one built without that step |
| StoryIndex.CardStories | components/DeliverableCard.tsx:19-35 | a card contributes each of its stories once, in order, tagged with its step and card |
| StoryIndex.StepStoriesMembers | components/DeliverableCard.tsx:19-35 | the stories collected for a step are exactly the stories of its cards |
| StoryIndex.AllStoriesMembers | components/DeliverableCard.tsx:19-35 | the flattened list holds a story exactly when some step, card and position carry it |
| StoryIndex.AllStoriesCount | components/DeliverableCard.tsx:19-35 | the flattened list has one entry per story |
| StoryIndex.AllStoriesAppend | utils/exportUtils.ts:84-94 | the stories of two runs of steps are those of the first run followed by those of the second |
| StoryIndex.StorylessStepAddsNothing | utils/exportUtils.ts:84-94 | removing a step whose cards hold no stories, wherever it stands, leaves the flattened stories unchanged |
| StoryIndex.CollectStories | utils/exportUtils.ts:84-94 | the three nested loops push one mapped entry per story, in step, card, story order |
| StoryIndex.CollectStepStories | components/DeliverableCard.tsx:22-33 | the loops over one step push one mapped entry per story of its cards |
| PdfLayout.CeilLines | utils/exportUtils.ts:148-152 | `Math.ceil(n / 90)` is the fewest 90-character lines that hold n characters |
| PdfLayout.FinalHeight | utils/exportUtils.ts:145-166 | the accumulated height is the estimate raised to 297 when it is shorter, so it is never below an A4 length and never below the estimate |
| PdfLayout.CardsHeightClosed | utils/exportUtils.ts:157-160 | the cards cost 10 each plus 8 per story |
| PdfLayout.ScenarioLines | utils/exportUtils.ts:148-152 | the fewest 90-character lines that hold both the current and the future scenario |
| PdfLayout.StepHeight | utils/exportUtils.ts:147-162 | a step costs 55 plus 7 per scenario line, plus 15, 10 per card and 8 per story when it is improved and has cards |
| PdfLayout.StepsHeight | utils/exportUtils.ts:146-163 | the steps add at least 55 each |
| PdfLayout.Estimate | utils/exportUtils.ts:144-163 | the estimate is at least the base of 80 plus 55 per step |
| PdfLayout.NoImprovementIgnoresCards | utils/exportUtils.ts:155 | a step kept as it is costs 55 plus 7 per scenario line, whatever its cards |
| PdfLayout.CeilLinesMonotonic | utils/exportUtils.ts:148-153 | a longer scenario never needs fewer lines |
| PdfLayout.EstimateGrows | utils/exportUtils.ts:147-164 | appending a step makes the estimate strictly larger, by that step's height |
| PdfLayout.StepsHeightAppend | utils/exportUtils.ts:147-164 | the height of a list of steps is the sum of the heights of its parts |
| PdfLayout.StepsHeightRemoveAt | utils/exportUtils.ts:147-164 | removing a step takes away exactly its height |
| PdfLayout.ReorderKeepsEstimate | utils/exportUtils.ts:147-164 | dragging a step to another place leaves the page height as it was |
| App.NewStep | App.tsx:96-108 | a new step is named "Nova Etapa", with the fresh id, empty texts and lists, and not marked as unchanged |
| App.StepsWithout | App.tsx:117 | deleting by id keeps exactly the steps with other ids |
| App.StepsReplaced | App.tsx:125 | each step with the updated step's id is replaced by it and the others are kept, with the length unchanged |
| App.ItemsReplaced | App.tsx:146 | each DEIP item with the updated item's id is replaced by it and the others are kept |
| App.ItemsWithout | App.tsx:153 | deleting by id keeps exactly the DEIP items with other ids |
| App.Panel | App.tsx:162-179 | the panel shows the start or end node for those selections; a step or DEIP item exactly when one with the selected id exists, and then the first one in list order; otherwise "Item não encontrado" |
| App.AppState.constructor | App.tsx:18-25 | the application starts with no document, nothing selected, the panel closed and no notification |
| App.AppState.Load | App.tsx:27-31 | the stored document becomes the open one and nothing else changes |
| App.AppState.HandleUpdate | App.tsx:47-50 | one top-level field takes the new value, the rest of the document and the UI state are unchanged, and nothing happens without a document |
| App.AppState.HandleSelectElement | App.tsx:52-56 | selects the element and its kind and opens the panel, leaving the document alone |
| App.AppState.HandleClosePanel | App.tsx:58-62 | closes the panel and clears the selection, leaving the document alone |
| App.AppState.AddDeipItem | components/DeipLayout.tsx:33-42 | adding a DEIP item appends it to the document, selects it as a DEIP item and opens the panel, which shows the new empty item when its id was unused |
| App.AppState.HandleImport | App.tsx:64-85 | with no file nothing changes; a parse failure or a failed check only sets its error notice; a file that passes replaces the document, closes the panel and sets the success notice |
| App.AppState.UpdateSteps | App.tsx:89-92 | the document's steps become the new list and nothing else changes |
| App.AppState.HandleAddStep | App.tsx:94-112 | appends one new step at the end and selects it with the panel open |
| App.AppState.HandleDeleteStep | App.tsx:114-121 | when confirmed, removes every step with that id, keeps the rest in order, and closes the panel only when that id was selected; otherwise nothing changes |
| App.AppState.HandleUpdateSelectedStep | App.tsx:123-127 | replaces the steps with the updated step's id and keeps the length, the order and the UI state |
| App.AppState.HandleUpdateStartNode | App.tsx:129-132 | the start node is replaced and nothing else changes |
| App.AppState.HandleUpdateEndNode | App.tsx:134-137 | the end node is replaced and nothing else changes |
| App.AppState.HandleUpdateDeipItems | App.tsx:139-142 | the DEIP list is replaced and nothing else changes |
| App.AppState.HandleUpdateDeipItem | App.tsx:144-148 | replaces only the DEIP items with the updated item's id |
| App.AppState.HandleDeleteDeipItem | App.tsx:150-157 | when confirmed, removes the DEIP items with that id and closes the panel only when that id was selected; otherwise nothing changes |
| App.AddThenDeleteStep | App.tsx:94-121 | deleting a step that was just added, under a fresh id, gives back the original steps |
| App.DeleteStepAt | App.tsx:117 | when ids are unique, deleting by id removes exactly the step at that id's position |
| App.ReplaceKeepsIds | App.tsx:125 | replacing by id never changes the id at any position |
| App.PanelShowsUpdatedStep | App.tsx:123-127 | after the selected step is updated, the panel shows the updated step |
| App.PanelShowsAddedItem | components/DeipLayout.tsx:33-42 | a DEIP item appended under an unused id is what the panel shows when that id is selected |
| App.PanelChoice | App.tsx:162-179 | start and end selections show the nodes, and a step or DEIP id that is not found gives "Item não encontrado" |
| EditableText.Next | components/EditableText.tsx:31-89 | only a save emits a value, it emits the local value, it ends editing, and only a change of the `value` prop changes the displayed value |
| EditableText.Run | components/EditableText.tsx:31-89 | a sequence of events emits at most one value per event |
| EditableText.EditThenBlur | components/EditableText.tsx:41-44 | click, type and blur emits exactly the typed text and leaves editing |
| EditableText.EditThenEscape | components/EditableText.tsx:52-55 | click, type and Escape emits nothing and restores the local value to `value` |
| EditableText.EnterSaves | components/EditableText.tsx:47-51 | Enter without Shift saves like blur on a single line, and does nothing in a multiline editor |
| EditableText.NoEditNoChange | components/EditableText.tsx:87-89 | without a click, no event sequence starts editing or emits anything |
| EditableText.ValuePropSyncs | components/EditableText.tsx:31-33 | a new `value` prop resets the local value to it |
| EditableText.Display | components/EditableText.tsx:99 | the display shows `value`, or the placeholder when `value` is empty |
| EditableText.Save | components/EditableText.tsx:41-44 | saving leaves editing, hands the local text to `onChange`, and changes nothing else |
| EditableText.EditableText.constructor | components/EditableText.tsx:27-28 | a new editor is not editing and its local value is `value` |
| EditableText.EditableText.OnClick | components/EditableText.tsx:89 | a click makes the transition of the state machine |
| EditableText.EditableText.OnType | components/EditableText.tsx:64 | typing sets the local value as the state machine says |
| EditableText.EditableText.OnBlur | components/EditableText.tsx:41-44 | blur saves and emits as the state machine says |
| EditableText.EditableText.OnKeyDown | components/EditableText.tsx:46-56 | a key press makes the state machine's transition and emission |
| EditableText.EditableText.OnValueProp | components/EditableText.tsx:31-33 | a new `value` prop updates the state as the state machine says |
| EditableText.EditableText.Shown | components/EditableText.tsx:99 | the display shows `value`, or the placeholder when `value` is empty |
| DeliverableCard.AllStoryRefs | components/DeliverableCard.tsx:19-35 | the nested loops list every story once, in step, card, story order, with its step and user names |
| DeliverableCard.AllStoryRefsComplete | components/DeliverableCard.tsx:19-35 | every story of every card of every step is in the list |
| DeliverableCard.LinkedStories | components/DeliverableCard.tsx:38 | the linked stories are exactly the listed stories whose id is linked |
| DeliverableCard.DanglingIdIgnored | components/DeliverableCard.tsx:38 | a linked id that names no story changes nothing that is shown |
| DeliverableCard.Toggled | components/DeliverableCard.tsx:41-46 | a linked id is removed everywhere; an unlinked id is appended at the end |
| DeliverableCard.ToggleStoryLink | components/DeliverableCard.tsx:41-47 | only the linked ids change; the id, title and description are kept |
| DeliverableCard.ToggleTwice | components/DeliverableCard.tsx:41-46 | toggling an unlinked id twice restores the list exactly |
| DeliverableCard.ToggleKeepsNoDuplicates | components/DeliverableCard.tsx:41-46 | a list without duplicates stays without duplicates |
| DeliverableCard.ToggleFlipsLink | components/DeliverableCard.tsx:41-46 | after a toggle the id is linked exactly when it was not before |
| UserStoryCard.AddStory | components/UserStoryCard.tsx:23-29 | a card with 5 or more stories is unchanged; otherwise one story with empty text and priority "Essencial" is appended |
| UserStoryCard.AddStoryCapped | components/UserStoryCard.tsx:23 | adding never takes a card past 5 stories, and it changes the card exactly when the add button is shown |
| UserStoryCard.UpdateStory | components/UserStoryCard.tsx:32-36 | only the named field of the stories with that id changes; length and order are kept |
| UserStoryCard.UpdateStoryIdempotent | components/UserStoryCard.tsx:32-36 | repeating an edit changes nothing further |
| UserStoryCard.RemoveStory | components/UserStoryCard.tsx:39-44 | removes every story with that id, without confirmation, keeping the others |
| UserStoryCard.RemoveStoryFreesRoom | components/UserStoryCard.tsx:39-44 | removing a story from a card within the cap shows the add button |
| UserStoryCard.PriorityColor | components/UserStoryCard.tsx:14-18 | every priority has a colour class |
| UserStoryCard.PriorityColorsDistinct | components/UserStoryCard.tsx:14-18 | different priorities have different colours |
| ListInput.AppendTrimmed | components/StepDetails.tsx:28-33 | the trimmed text is appended exactly when it is not blank, the new list is the old one with exactly that trimmed text at the end, and nothing else changes |
| ListInput.AppendTrimmedStable | components/StepDetails.tsx:28-33 | the appended entry is already trimmed |
| ListInput.AppendThenRemove | components/StepDetails.tsx:28-41 | removing the entry just added gives the list back |
| StepDetails.ListEditor.constructor | components/StepDetails.tsx:26 | the input starts empty |
| StepDetails.ListEditor.SetNewItem | components/StepDetails.tsx:26 | typing sets the input text |
| StepDetails.ListEditor.HandleAdd | components/StepDetails.tsx:28-33 | emits the list with the trimmed text appended and clears the input exactly when the text is not blank |
| StepDetails.ListEditor.HandleKeyDown | components/StepDetails.tsx:35-37 | Enter adds as the add button does, and any other key does nothing |
| StepDetails.HandleRemove | components/StepDetails.tsx:39-41 | removes exactly the entry at the index and keeps the others in order |
| StepDetails.AddUserCard | components/StepDetails.tsx:90-97 | appends one card with an empty user name and no stories, changing nothing else in the step |
| StepDetails.UpdateUserCard | components/StepDetails.tsx:100-104 | replaces only the card at the index |
| StepDetails.DeleteUserCard | components/StepDetails.tsx:106-111 | removes the card at the index exactly when confirmed |
| StepDetails.DatePart | components/StepDetails.tsx:117 | the date is the prefix before the first `T` |
| StepDetails.DatePartOfTimestamp | components/StepDetails.tsx:117 | for an ISO timestamp the date is its first ten characters, YYYY-MM-DD |
| StepDetails.AddMapping | components/StepDetails.tsx:113-121 | appends one note with the fresh id, today's date and empty interviewee and notes |
| StepDetails.UpdateMapping | components/StepDetails.tsx:124-129 | replaces only the note at the index |
| StepDetails.DeleteMapping | components/StepDetails.tsx:131-136 | removes the note at the index exactly when confirmed |
| StepDetails.DeleteAddedMapping | components/StepDetails.tsx:113-136 | deleting the note just added gives the step back |
| StepDetails.StepPanel.constructor | components/StepDetails.tsx:88 | the panel opens on the overview tab |
| StepDetails.StepPanel.SelectTab | components/StepDetails.tsx:144-181 | a tab button selects its tab |
| StepDetails.StepPanel.AddCard | components/StepDetails.tsx:90-97 | adding a card emits the step with the new card and switches to the stories tab |
| Timeline.IndexOf | components/Timeline.tsx:152-153 | the index is the first position with the id, or -1 exactly when no step has it |
| Timeline.DragEnd | components/Timeline.tsx:149-156 | no drop target or the step itself changes nothing; otherwise the dragged step moves to the target's index |
| Timeline.DragEndKeepsSteps | components/Timeline.tsx:152-154 | a drag keeps exactly the same steps |
| Timeline.DragEndBack | components/Timeline.tsx:149-156 | with unique ids, dragging the step back to its old place restores the order |
| Timeline.UniqueIdsPermutation | components/Timeline.tsx:154 | reordering keeps the ids unique |
| Timeline.UpdateStep | components/Timeline.tsx:158-161 | sets only the name or the role of the steps with that id |
| Timeline.UpdateStepShows | components/Timeline.tsx:158-161 | the edited step shows the new text afterwards |
| Timeline.StepNumber | components/Timeline.tsx:135 | the displayed number is the index plus 1 |
| ProcessTable.DragEnd | components/ProcessTable.tsx:38-47 | a drag with no target or onto itself emits nothing; otherwise only the steps change, as in the timeline |
| ProcessTable.Emit | components/ProcessTable.tsx:38-47 | an emitted document differs from the original only in its steps |
| ProcessTable.BlankStep | components/ProcessTable.tsx:50-59 | the table's new step is the app's new step except that its name is empty |
| ProcessTable.AddStep | components/ProcessTable.tsx:50-59 | appends one step with empty name and scenarios, not marked as unchanged, with no cards |
| ProcessTable.UpdateStep | components/ProcessTable.tsx:62-65 | replaces only the step at the index |
| ProcessTable.DeleteStep | components/ProcessTable.tsx:68-72 | removes the step at the index exactly when confirmed |
| ProcessTable.VisibleSteps | components/ProcessTable.tsx:75-77 | all steps when the toggle is on, otherwise exactly the improved steps |
| ProcessTable.CountNoImprovement | components/ProcessTable.tsx:79 | the count is zero exactly when no step is marked as unchanged |
| ProcessTable.CountPlusVisible | components/ProcessTable.tsx:75-79 | the unchanged steps and the visible improved steps together are all the steps |
| ProcessTable.RealIndex | components/ProcessTable.tsx:119-126 | a visible row's index is its step's position in the full list |
| ProcessTable.TableView.constructor | components/ProcessTable.tsx:29 | the table starts showing all steps |
| ProcessTable.TableView.ToggleShowNoImprovement | components/ProcessTable.tsx:92 | the switch flips the filter |
| ProcessTable.TableView.Rows | components/ProcessTable.tsx:75-77 | the rows are all steps or the improved steps, as the switch says |
| ProjectView.Requirements | components/ProjectView.tsx:17-18 | missing requirements read as an empty list |
| ProjectView.AddDeliverable | components/ProjectView.tsx:21-28 | appends one deliverable titled "Nova Entrega" with empty description and no links |
| ProjectView.UpdateDeliverable | components/ProjectView.tsx:31-33 | replaces only the deliverables with that id; length and order are kept |
| ProjectView.DeleteDeliverable | components/ProjectView.tsx:36-40 | when confirmed, keeps exactly the deliverables with other ids |
| ProjectView.DeleteAddedDeliverable | components/ProjectView.tsx:21-40 | deleting the deliverable just added gives the document back |
| ProjectView.RemoveRequirement | components/ProjectView.tsx:50-52 | removes only the requirement at the index |
| ProjectView.View.constructor | components/ProjectView.tsx:19 | the input starts empty |
| ProjectView.View.SetNewRequirement | components/ProjectView.tsx:19 | typing sets the input text |
| ProjectView.View.AddRequirement | components/ProjectView.tsx:43-47 | emits the requirements with the trimmed text appended exactly when it is not blank, then clears the input |
| ProcessSidebar.Rules | components/ProcessSidebar.tsx:19 | missing rules read as an empty list |
| ProcessSidebar.Risks | components/ProcessSidebar.tsx:20 | missing risks read as an empty list |
| ProcessSidebar.RemoveRule | components/ProcessSidebar.tsx:29-31 | removes only the rule at the index, emitting the rules field |
| ProcessSidebar.RemoveRisk | components/ProcessSidebar.tsx:40-42 | removes only the risk at the index, emitting the risks field |
| ProcessSidebar.RemovalsIndependent | components/ProcessSidebar.tsx:24-42 | editing rules leaves the risks alone and the other way round |
| ProcessSidebar.Sidebar.constructor | components/ProcessSidebar.tsx:16-17 | both inputs start empty |
| ProcessSidebar.Sidebar.SetNewRule | components/ProcessSidebar.tsx:16 | typing a rule leaves the risk input alone |
| ProcessSidebar.Sidebar.SetNewRisk | components/ProcessSidebar.tsx:17 | typing a risk leaves the rule input alone |
| ProcessSidebar.Sidebar.AddRule | components/ProcessSidebar.tsx:22-27 | emits the rules with the trimmed text appended exactly when it is not blank, then clears the rule input |
| ProcessSidebar.Sidebar.AddRisk | components/ProcessSidebar.tsx:33-38 | emits the risks with the trimmed text appended exactly when it is not blank, then clears the risk input |
| NodeDetails.AddCard | components/NodeDetails.tsx:18-24 | appends one card with empty title and text |
| NodeDetails.UpdateCard | components/NodeDetails.tsx:27-31 | changes only the named field of the cards with that id |
| NodeDetails.DeleteCard | components/NodeDetails.tsx:34-38 | when confirmed, emits the node with exactly the cards with other ids and nothing else changed; otherwise nothing is emitted |
| NodeDetails.DeleteAddedCard | components/NodeDetails.tsx:18-38 | deleting the card just added gives the node back |
| DeipLayout.GetItems | components/DeipLayout.tsx:45-47 | the items of a category are exactly those of that category |
| DeipLayout.GetItemsPartition | components/DeipLayout.tsx:45-47 | the four categories split the items: together they are all of them |
| DeipLayout.AddItem | components/DeipLayout.tsx:33-42 | appends one item of the category with empty title and description and no attention flag |
| DeipLayout.AddItemCounts | components/DeipLayout.tsx:33-47 | adding raises the count of its own category by one and leaves the others |
| DeipLayout.TimelineSelection | components/DeipLayout.tsx:134 | "START" selects the start node, "END" the end node, anything else a step |
| ProcessStepRow.ToggleNoImprovement | components/ProcessStepRow.tsx:58-60 | flips the flag and changes nothing else |
| ProcessStepRow.ToggleNoImprovementTwice | components/ProcessStepRow.tsx:58-60 | toggling twice restores the step |
| ProcessStepRow.UserCountFollowsCards | components/ProcessStepRow.tsx:35-62 | the user count rises by one when a card is added, falls by one when a removal is confirmed, and a refused removal emits nothing |
| ProcessStepRow.StepRow.constructor | components/ProcessStepRow.tsx:19 | a row starts collapsed |
| ProcessStepRow.StepRow.ToggleExpand | components/ProcessStepRow.tsx:81-83 | the chevron flips the row, and is disabled for a step kept as it is |
| ProcessStepRow.StepRow.AddUserCard | components/ProcessStepRow.tsx:35-42 | adding a card emits the step with one empty card and expands the row |
| ProcessStepRow.StepRow.ShowsStories | components/ProcessStepRow.tsx:176 | the story panel shows exactly when the row is expanded and the step is to be improved |
| DeipItemDetails.CategoryLabel | components/DeipItemDetails.tsx:17-25 | an unknown category is labelled "Item" and the four categories are not |
| DeipItemDetails.CategoryLabelsDistinct | components/DeipItemDetails.tsx:17-25 | the four categories have four different labels |
| DeipItemDetails.ColorClass | components/DeipItemDetails.tsx:27-35 | an unknown category, like policies, is coloured "text-slate-600" |
| DeipItemDetails.ColorClassesDistinct | components/DeipItemDetails.tsx:27-35 | inputs, outputs and resources have three different colours, none of them the default |
| DeipItemDetails.ToggleAttention | components/DeipItemDetails.tsx:62 | flips the attention flag and keeps the other fields |
| DeipItemDetails.ToggleAttentionTwice | components/DeipItemDetails.tsx:62 | two presses restore the item |
| DeipItemDetails.SetTitle | components/DeipItemDetails.tsx:53 | sets only the title |
| DeipItemDetails.SetDescription | components/DeipItemDetails.tsx:85 | sets only the description |

## Left out

- Browser storage and I/O are not modelled: saving to and loading from `localStorage`, the `FileReader`, the Blob and link download plumbing, and clearing the file input (`e.target.value = ''`). Import is modelled as its decision, on the outcome of reading and parsing.
- The debounced autosave and the notification timer are left out, because they are timer-driven asynchrony. The model sets the notification and never clears it.
- Drawing with the spreadsheet and PDF libraries is left out: `aoa_to_sheet`, `writeFile`, the jsPDF calls and `splitTextToSize`. Only the rows handed to the spreadsheet library and the page-height arithmetic are modelled.
- The HTML export, `exportToJson` and `getEmptyProcess` are left out. They are string templates, I/O, or a constant document. `ProcessJson.DocumentJson` stands for what `JSON.stringify` writes.
- `ensureCompatibleData` is not part of this model: its definition is not in the files modelled. Its result enters `App.AppState.HandleImport` as the `migrated` parameter.
- `generateId`, `new Date()`, `toLocaleString`, `confirm` and `JSON.parse` are environment calls. They become the parameters `freshId`, `isoNow`, `updated`, `confirmed` and `ImportResult`.
- `@dnd-kit` sensors are left out. `ListOps.ArrayMove` follows the meaning of `arrayMove`: remove at the old index, insert at the new one. `Timeline.DragEnd` and `ProcessTable.DragEnd` require both dragged ids to be present, as the sortable context only reports ids of listed steps.
- The types declare `deipItems`, `deliverables`, `startNode`, `endNode` and a step's `mappings` as required. The model takes the `x || []` fallbacks on them as the identity, so a document missing them is not represented.
- `steps` is optional in the types, yet the app handlers spread, map and filter it directly, which throws when it is missing:
  - `App.AppState.HandleAddStep`, `App.AppState.HandleDeleteStep` and `App.AppState.HandleUpdateSelectedStep` model that case as "nothing changes";
  - `App.Panel` shows "Item não encontrado" where the program would fail;
  - the exports and the table take the step list itself;
  - `DeliverableCard.AllStoryRefs` requires `steps` to be present, because `fullData.steps.forEach` throws without it (components/DeliverableCard.tsx:21).
- Texts are sequences of characters. JavaScript counts UTF-16 code units in `length`, which differs for characters outside the Basic Multilingual Plane, and the PDF line estimate depends on that.
- Numbers are unbounded integers. `Math.ceil(Math.max(a / 90, b / 90))` is modelled as the integer ceiling of the larger length over 90, which agrees for the non-negative lengths it is applied to.
- `Text.IsSpace` lists the whitespace and line-terminator code points of ECMAScript explicitly, as fixed at the time of writing; it does not follow later changes to the Unicode space-separator category.
- The CSV text joins rows with `\n`, as the program does. Rule 1 of section 2 of RFC 4180 asks for CRLF; `CsvText.ParseRows` reads the program's format.
- DeliverableCard's `isLinking` flag (components/DeliverableCard.tsx:16) is not modelled: it only opens and closes the story picker, and no list edit depends on it.
- ProcessStepRow's `updateUserCard` and `removeUserCard` (components/ProcessStepRow.tsx:45-56) are the same copy-and-assign and index filter as StepDetails' `updateUserCard` and `deleteUserCard`. They are modelled once, by `StepDetails.UpdateUserCard` and `StepDetails.DeleteUserCard`.
- Rendering is not modelled: JSX layout, styling, icons, and the dropdown in ExportButtons. ProcessHeader, MappingCard and DeipCard are left out too, being record spreads and display fallbacks.
- ProcessTable.AddStep: the source's literal for a new table step leaves out role, ideal scenario, inputs, outputs and mappings. The model fills them with empty texts and lists, because a step value must have every field.
- App.AppState.HandleImport: it does not model the file input being cleared after reading. The notification that a successful import shows is not removed after three seconds.
- EditableText.EditableText.OnClick: it does not model focusing the input once editing starts.

## Where the model follows the code

- `validateProcessJson` requires both an array `steps` and a string `title`, although the document type lets `steps` be left out; `ProcessJson.ValidateExactly` states exactly what the code checks. `ProcessJson.SavedDocumentValid` shows that a saved document without `steps` is refused when it is imported again.
