# FIR Intelligence console — client logic in Dafny

The FIR Intelligence console is a Next.js admin front end for First Information Report documents
(police case files). OCR, extraction, search, chat and analytics all run behind a REST API. This
project models the logic the browser runs itself: the pages' state, their handlers, and the
values they send or show.

- **API client** (`Api`): composes URLs under `${baseUrl}/api` and adds the default JSON content
  type. It turns a failed reply into an error message. It builds the query strings of the
  document and search list endpoints, and the form fields of the two upload endpoints.
  Query strings are written by the `application/x-www-form-urlencoded` serializer of the WHATWG
  URL Standard (`FormUrlEncoding`); its parser is the reference they are proved against.
- **Documents browser** (`FolderTree`): works on a flat folder list linked by `parent_id`.
  - It rebuilds the breadcrumb path for a `?folder=` link by walking up the parents.
  - It lists the current folder, or the search matches, with folders first.
  - It updates the local lists after a create or a delete, and tracks the expanded-folder set.
- **Upload page** (`UploadPage`, with `AnalysisPoll` and `UploadForm`) runs three steps:
  - upload the file temporarily;
  - start an asynchronous analysis and poll its status every 2 s, for at most 2 minutes;
  - review the extracted metadata and save it.

  The review form turns text boxes into lists: acts, sections, names and vehicles.
- **Upload wizard** (`UploadWizard`): the same steps in a dialog, with a single synchronous
  analysis. The form is pre-filled from the metadata. The dialog refuses to close while a
  request is in flight, and resets itself after a save.
- **Dashboard** (`Dashboard`): four counts, plus the three newest entries of a feed merged from
  the documents and the folders.
- **Analytics** (`Analytics`): uses the analytics endpoint's payload when there is one. Otherwise
  it computes the numbers from the lists:
  - the status tally and the status chart;
  - the last six months that have documents, or six empty months;
  - the five newest documents.

  It has a fallback fetch, and empties everything when all requests fail.
- **Search** (`Search`): a query and ten filters, turned into the search endpoint's parameters.
- **Chat** (`Chat`): a conversation whose messages are only appended. It has a scope object, and
  a local error message when a send fails.
- **PDF viewers** (`PdfViewer`): page navigation guarded by the reported page count, the page
  input and quarter-turn rotation.

Shared modules:

- `Common`: Option and Result, `filter`, occurrence counts and first-occurrence order.
- `Text`: JavaScript's `trim`, `split`, `join`, ASCII lower case and `toString` of naturals.
- `JsonValues`: JSON values, truthiness, `||` and object spread.
- `Records`: the folder and document records.
- `Sorting`: the orders used by `sort`.

Each `async` handler is split at its `await` into a `Begin…` method and an `End…` method. The
`Begin…` method does the work up to the request and returns what is sent. The `End…` method takes
the settled reply. The clock, the locale's date formatting and `parseInt` are parameters.

Two behaviours of the source are recorded as they are:

- The upload page keeps empty entries in the sections list, so clearing the box stores `[""]`
  (`UploadForm.SectionsKeepEmpty`). Acts, names and the wizard's lists drop empty entries.
- The accused and victim name filters of the search page are put into the parameter object.
  The API client's search builder ignores them, so they never reach the server
  (`Search.NamesNeverSent`, `Search.NameOnlySearchIsUnfiltered`).

## Model

| member | source | states |
|---|---|---|
| Api.UrlSpec | src/lib/api-client.ts:11-12 | every request URL is the base URL, then `/api`, then the endpoint; different endpoints give different URLs |
| Api.MergeHeaders | src/lib/api-client.ts:14-20 | the caller's headers are all kept; `Content-Type` defaults to `application/json` and only when the caller sets none |
| Api.HttpErrorMessage | src/lib/api-client.ts:25-28 | the error message of a failed reply is never empty. A `null` body throws the `TypeError` of reading `error` from `null`; otherwise the message is the body's `error` text when it has one, else starts with `HTTP error! status: ` |
| Api.SettleSpec | src/lib/api-client.ts:22-34 | a request succeeds exactly when the reply does. A failure whose body is `null` rejects with the `TypeError` of reading `error` from `null`. Any other failure carries the body's `error` text when it has one, else `HTTP error! status: N`. A network rejection keeps its own message |
| Api.QueryForSpec | src/lib/api-client.ts:160-172 | the query holds, in the builder's key order, exactly the keys with a non-empty value, each with its value |
| Api.QueryIgnoresOtherKeys | src/lib/api-client.ts:160-172 | two parameter objects that agree on the builder's keys give the same query |
| Api.UnknownKeyIgnored | src/lib/api-client.ts:159-172 | a parameter under a key the builder does not know never changes the query |
| Api.BuildQuery | src/lib/api-client.ts:58-64 | the loop of `append` calls builds exactly the query of `QueryForSpec` |
| Api.QuerySuffix | src/lib/api-client.ts:64-65 | the URL gets `?` and the form-urlencoded query exactly when the query is non-empty, and the parser reads every name and value of that query back in order |
| FormUrlEncoding.Utf8 | src/lib/api-client.ts:64 | each character is one to four bytes, one exactly for ASCII |
| FormUrlEncoding.EncodeChar | src/lib/api-client.ts:64 | a character is kept when unreserved, a space becomes `+`, anything else the `%XX` of its UTF-8 bytes; the output is never empty and holds only safe characters |
| FormUrlEncoding.EncodeComponent | src/lib/api-client.ts:64 | an encoded name or value holds only unreserved characters, `+` and `%` |
| FormUrlEncoding.SafeHasNoSeparator | src/lib/api-client.ts:64 | an encoded name or value never holds `&`, `=` or a space |
| FormUrlEncoding.SerializeEmpty | src/lib/api-client.ts:64-65 | the serialized query is empty exactly when there is no pair |
| FormUrlEncoding.PercentAllDecodes | src/lib/api-client.ts:64 | percent-decoding `%XX…` gives back the bytes |
| FormUrlEncoding.EncodeCharDecodes | src/lib/api-client.ts:64 | an encoded character decodes to its UTF-8 bytes |
| FormUrlEncoding.DecodeEncode | src/lib/api-client.ts:64 | decoding an encoded name or value gives the UTF-8 bytes of the original |
| FormUrlEncoding.ParseEncodedPair | src/lib/api-client.ts:64 | one serialized pair parses back into its name and value |
| FormUrlEncoding.ParseSerialize | src/lib/api-client.ts:58-64 | parsing the serialized query gives every appended name and value, in order, as UTF-8 bytes |
| FormUrlEncoding.SerializeExample | src/lib/api-client.ts:160-175 | the search query `a b&c=d` is sent as `q=a+b%26c%3Dd` |
| Api.UploadFields | src/lib/api-client.ts:72-75 | `folderId` and `title` are sent exactly when they are non-empty |
| Api.ApiClient.constructor | src/lib/api-client.ts:2-9 | the base URL is the configured backend, or `http://localhost:5001` when none is set |
| Api.ApiClient.Request | src/lib/api-client.ts:11-35 | the URL and the headers sent, and the settled result |
| Api.ApiClient.FoldersGetAll | src/lib/api-client.ts:39-40 | `?parentId=` is added exactly when a parent id is given |
| Api.ApiClient.DocumentsGetAll | src/lib/api-client.ts:57-66 | the list URL carries the query of folderId, status, limit and offset |
| Api.ApiClient.SearchGet | src/lib/api-client.ts:159-176 | the search URL carries the query of the twelve search keys |
| Api.ApiClient.Upload | src/lib/api-client.ts:71-105 | picks the upload or temporary-upload endpoint, sends no JSON header, sends the optional form fields, and settles like any request |
| FolderTree.Find | src/app/documents/page.tsx:84 | a found folder is listed and has the id; not found means no listed folder has it |
| FolderTree.FindFirst | src/app/documents/page.tsx:84 | `find` returns the first listed folder with the id, whatever folders with the same id follow it |
| FolderTree.ParentOf | src/app/documents/page.tsx:95-97 | one step up is the listed folder whose id is the current folder's `parent_id` |
| FolderTree.AncestorsWalk | src/app/documents/page.tsx:94-108 | the ancestor list is the walk of the page's loop, each entry the parent of the one before |
| FolderTree.AncestorsUnique | src/app/documents/page.tsx:94-108 | once the walk stops, more steps change nothing: the walk from a folder is unique |
| FolderTree.AncestorsDistinct | src/app/documents/page.tsx:94-108 | a walk that stops visits no folder twice and never returns to its start |
| FolderTree.WalkLinked | src/app/documents/page.tsx:96-101 | each rebuilt crumb after the first names a listed folder whose parent is the crumb before it, and the walk stopped at the first folder crumb |
| FolderTree.ChainLinked | src/app/documents/page.tsx:96-101 | a path built from any chain of parents links each folder crumb to the one before it, wherever the chain stops |
| FolderTree.WalkDistinct | src/app/documents/page.tsx:94-108 | the rebuilt path repeats no folder id |
| FolderTree.BreadcrumbsSpec | src/app/documents/page.tsx:86-110 | the path starts at Home and ends at the requested folder, with one entry per ancestor, farthest first |
| FolderTree.BuildPath | src/app/documents/page.tsx:87-108 | the page's `while` loop with `splice(1, 0, …)` builds exactly that path |
| FolderTree.SelfParentWalkNeverStops | src/app/documents/page.tsx:94-106 | for a folder that is its own parent, the walk has not stopped after any number of steps |
| FolderTree.SelfParentNeverEnds | src/app/documents/page.tsx:94-106 | the walk from a folder that is its own parent never ends |
| FolderTree.GuardedWalkSpec | src/app/documents/page.tsx:94-106 | the corrected walk follows `parent_id` links, stops only at a folder without a listed parent or before one already on the path, and repeats no id |
| FolderTree.GuardedWalkIsWalk | src/app/documents/page.tsx:94-106 | where the page's walk stops by itself without repeating a folder, the corrected walk is that same walk |
| FolderTree.GuardedBreadcrumbsSpec | src/app/documents/page.tsx:86-110 | for every folder list, cycles included, the corrected path starts at Home, ends at the folder, links each crumb to its parent and repeats no id; where the page's walk ends it is the page's path |
| FolderTree.ListingSpec | src/app/documents/page.tsx:128-145 | without a search term, exactly the current folder's child folders and documents are listed, folders first |
| FolderTree.ItemsMembership | src/app/documents/page.tsx:118-126 | a listing holds exactly the records of its two lists, folders first |
| FolderTree.SortKeepsFoldersFirst | src/app/documents/page.tsx:392-400 | the render's folders-first sort leaves a listing unchanged |
| FolderTree.DeleteSpec | src/app/documents/page.tsx:190-208 | a delete drops exactly the records named and keeps the rest in order |
| FolderTree.Toggled | src/app/documents/page.tsx:250-260 | toggling flips membership of that folder only |
| FolderTree.ToggleTwice | src/app/documents/page.tsx:250-260 | toggling twice restores the expanded set |
| FolderTree.DocumentsPage.constructor | src/app/documents/page.tsx:52-62 | the initial state: empty lists, the root expanded, the path at Home |
| FolderTree.DocumentsPage.Load | src/app/documents/page.tsx:149-168 | both lists are replaced on success and kept on failure |
| FolderTree.DocumentsPage.OpenInitialFolder | src/app/documents/page.tsx:81-113 | a listed `?folder=` id sets the path to its breadcrumbs; otherwise the path is kept |
| FolderTree.DocumentsPage.RefreshListing | src/app/documents/page.tsx:115-147 | the listing is the search matches or the current folder's children |
| FolderTree.DocumentsPage.SortListing | src/app/documents/page.tsx:392-400 | the listing is sorted with folders first |
| FolderTree.DocumentsPage.CreateFolder | src/app/documents/page.tsx:171-188 | a blank name sends nothing. Otherwise the typed name is sent under the current folder. On success the folder is appended, the name cleared and the dialog closed |
| FolderTree.DocumentsPage.DeleteDocument | src/app/documents/page.tsx:190-197 | a confirmed delete drops that document; a failure keeps the list |
| FolderTree.DocumentsPage.DeleteFolder | src/app/documents/page.tsx:199-208 | a confirmed delete drops the folder and the documents filed in it |
| FolderTree.DocumentsPage.NavigateToFolder | src/app/documents/page.tsx:223-231 | no folder goes back to Home; a folder is pushed onto the path |
| FolderTree.DocumentsPage.NavigateToBreadcrumb | src/app/documents/page.tsx:233-242 | the path is cut after the crumb clicked |
| FolderTree.DocumentsPage.NavigateUp | src/app/documents/page.tsx:244-248 | drops the last crumb, never Home |
| FolderTree.DocumentsPage.ToggleFolder | src/app/documents/page.tsx:250-260 | the expanded set is toggled at that folder |
| Records.CountStatus | src/app/analytics/page.tsx:89-91 | a status count is at most the number of documents, and positive exactly when a document has that status |
| Records.CountStatusIsFilter | src/app/page.tsx:46-47 | the count is the length of `documents.filter(status === s)` |
| UploadForm.TrimmedPieces | src/app/documents/upload/page.tsx:341-342 | the trimmed pieces of a split are trimmed and free of the separator |
| UploadForm.ParseList | src/app/documents/upload/page.tsx:340-343 | every entry parsed from the acts box is non-empty, trimmed and free of commas |
| UploadForm.ParseSectionsKeepingEmpty | src/app/documents/upload/page.tsx:357 | the sections box gives one trimmed entry per comma-separated piece, empty ones included |
| UploadForm.SectionsKeepEmpty | src/app/documents/upload/page.tsx:353-357 | an emptied sections box stores `[""]` on the page and `[]` in the wizard |
| UploadForm.WizardParsesLikePage | src/components/document-upload-wizard.tsx:367-395 | the wizard's list parser agrees with the page's acts parser on every input |
| UploadForm.ListRoundTrip | src/app/documents/upload/page.tsx:336-343 | a list shown as `join(", ")` and left unedited parses back to itself |
| UploadForm.ShownNamesOfObjects | src/app/documents/upload/page.tsx:505 | the names shown for a list of `{name}` objects are those names |
| UploadForm.NamesRoundTrip | src/app/documents/upload/page.tsx:505-513 | accused and victim names shown and left unedited come back as the same `{name}` list |
| UploadForm.VehicleLineRoundTrip | src/app/documents/upload/page.tsx:572-581 | a vehicle's `reg | type` line parses back to the vehicle |
| UploadForm.VehiclesRoundTrip | src/app/documents/upload/page.tsx:572-582 | vehicles shown one per line and left unedited parse back to the same list |
| UploadForm.VehicleExtraPartsIgnored | src/app/documents/upload/page.tsx:579-580 | only the first two `|`-separated parts of a line count |
| UploadForm.InitialForm | src/components/document-upload-wizard.tsx:59-67 | the fresh form holds empty acts and sections and an empty informant, nothing else |
| UploadForm.Prefill | src/components/document-upload-wizard.tsx:157-168 | the pre-filled form is the initial form overlaid with the metadata. Acts and sections are kept only when they are arrays, and the informant is kept only when it is truthy |
| UploadForm.FormOf | src/app/documents/upload/page.tsx:139 | the page's form holds the metadata object's fields, a string's characters or an array's items under their indices, and nothing for any other value |
| UploadForm.EditNested | src/app/documents/upload/page.tsx:544-562 | a nested edit sets one field of one sub-object, keeping its other fields and every other key |
| JsonValues.IndexedSpec | src/app/documents/upload/page.tsx:465-495 | a spread string or array puts item `i` under the key `"i"` and adds no other key |
| UploadForm.StringSpreadsItsCharacters | src/app/documents/upload/page.tsx:465-495 | editing a field of an informant that is a string keeps the string's characters under their indices, as object spread does |
| UploadForm.NestedEditsCommute | src/app/documents/upload/page.tsx:544-562 | the second of two edits of one field wins, and edits of two different fields commute |
| UploadForm.SaveTitle | src/app/documents/upload/page.tsx:159 | the saved title is the form's title when truthy, else the file's original name |
| UploadForm.SaveRequestFor | src/app/documents/upload/page.tsx:157-168 | the save body carries the uploaded path, that title, the folder, the whole form and the OCR fields |
| UploadForm.DateValue | src/components/document-upload-wizard.tsx:91-96 | an emptied date stores `null`; otherwise the ISO form of the value |
| UploadForm.YearValue | src/app/documents/upload/page.tsx:308 | the FIR year is stored exactly when `parseInt` gives a non-zero number; otherwise `null` |
| AnalysisPoll.Poll | src/app/documents/upload/page.tsx:120-134 | the `while (true)` loop ends with exactly the outcome of the polling specification |
| AnalysisPoll.PollSpec | src/app/documents/upload/page.tsx:120-134 | every wait ends. It times out only after the limit, with every reply before pending. Otherwise it ends on the first reply that is not pending, carrying its result, its message or "Analysis failed" |
| AnalysisPoll.AllPendingTimesOut | src/app/documents/upload/page.tsx:116-132 | with instant pending replies the wait asks 61 times and times out at 122000 ms |
| AnalysisPoll.PendingChecks | src/app/documents/upload/page.tsx:121-132 | with instant pending replies, the number of requests left from any elapsed time |
| AnalysisPoll.FailureMessage | src/app/documents/upload/page.tsx:120-146 | the shown message is never empty: the timeout text, the job's message, or "Analysis failed" |
| UploadPage.Page.constructor | src/app/documents/upload/page.tsx:54-70 | the upload step with nothing chosen, and the folder from a non-empty `?folderId=` |
| UploadPage.Page.SelectFile | src/app/documents/upload/page.tsx:73-78 | a chosen file is kept and the error cleared; no file changes nothing |
| UploadPage.Page.BeginUpload | src/app/documents/upload/page.tsx:81-92 | without a file nothing happens; otherwise processing starts and the folder and file name are sent |
| UploadPage.Page.EndUpload | src/app/documents/upload/page.tsx:94-100 | the uploaded file is kept on the upload step, or the error (or "Upload failed") is shown; processing ends |
| UploadPage.Page.BeginAnalyze | src/app/documents/upload/page.tsx:104-113 | without an upload nothing happens; otherwise the processing step starts and the path is sent |
| UploadPage.Page.EndAnalyze | src/app/documents/upload/page.tsx:113-146 | a completed wait shows the review step with the metadata as form. Any other outcome returns to the upload step with its message |
| UploadPage.Page.BeginSave | src/app/documents/upload/page.tsx:150-168 | without an uploaded and analysed file nothing happens; otherwise saving starts with the save body |
| UploadPage.Page.EndSave | src/app/documents/upload/page.tsx:170-176 | success navigates to `/documents`; failure shows the error or "Save failed"; saving ends |
| UploadPage.Page.BackToUpload | src/app/documents/upload/page.tsx:606 | back to the upload step, with the review invariant kept |
| UploadPage.Page.EditField | src/app/documents/upload/page.tsx:287 | one form key takes the value typed |
| UploadPage.Page.EditActs | src/app/documents/upload/page.tsx:337-345 | acts become the parsed list |
| UploadPage.Page.EditSections | src/app/documents/upload/page.tsx:354-359 | sections become the parsed list with empty entries kept |
| UploadPage.Page.EditInformant | src/app/documents/upload/page.tsx:465-495 | one informant field is set, and only while an informant is shown |
| UploadPage.Page.EditProperty | src/app/documents/upload/page.tsx:541-562 | one property field is set, creating the object when missing |
| UploadPage.Page.EditNames | src/app/documents/upload/page.tsx:506-515 | the accused or victim list becomes one `{name}` per non-empty entry |
| UploadPage.Page.EditVehicles | src/app/documents/upload/page.tsx:573-583 | the vehicles become one `{reg_no, type}` per non-blank line |
| UploadPage.Page.EditYear | src/app/documents/upload/page.tsx:308 | the FIR year becomes `parseInt || null` |
| UploadPage.Page.EditDate | src/app/documents/upload/page.tsx:369-373 | a date field becomes its ISO value, or `null` when emptied |
| UploadWizard.Fresh | src/components/document-upload-wizard.tsx:99-108 | the reset state: upload step, nothing chosen, no flags, the initial form |
| UploadWizard.ClosesOn | src/components/document-upload-wizard.tsx:212 | a close request reaches `onClose` exactly when no upload, analysis or save is in flight |
| UploadWizard.Wizard.constructor | src/components/document-upload-wizard.tsx:69-82 | the wizard starts in the reset state with its props |
| UploadWizard.Wizard.Reset | src/components/document-upload-wizard.tsx:99-108 | `resetWizard` restores the reset state |
| UploadWizard.Wizard.OpenChange | src/components/document-upload-wizard.tsx:212 | whether `onClose` is called, by `ClosesOn` |
| UploadWizard.Wizard.SelectFile | src/components/document-upload-wizard.tsx:111-116 | a chosen file is kept and the error cleared |
| UploadWizard.Wizard.BeginUpload | src/components/document-upload-wizard.tsx:119-130 | without a file nothing happens; otherwise processing starts and the fields are sent |
| UploadWizard.Wizard.EndUpload | src/components/document-upload-wizard.tsx:132-138 | the uploaded file is kept, or the error (or "Upload failed") is shown; processing ends |
| UploadWizard.Wizard.BeginAnalyze | src/components/document-upload-wizard.tsx:142-152 | without an upload nothing happens; otherwise the processing step starts and the path is sent |
| UploadWizard.Wizard.EndAnalyze | src/components/document-upload-wizard.tsx:150-176 | a result shows the review step with the pre-filled form; an error returns to upload with its message |
| UploadWizard.Wizard.BeginSave | src/components/document-upload-wizard.tsx:180-198 | without an uploaded and analysed file nothing happens; otherwise saving starts with the save body |
| UploadWizard.Wizard.EndSave | src/components/document-upload-wizard.tsx:200-207 | success resets the wizard and calls `onSuccess` when given, then `onClose`. A failure changes only the error and the saving flag |
| UploadWizard.Wizard.BackToUpload | src/components/document-upload-wizard.tsx:548 | back to the upload step |
| UploadWizard.Wizard.EditField | src/components/document-upload-wizard.tsx:310-311 | one form key takes the value typed |
| UploadWizard.Wizard.EditList | src/components/document-upload-wizard.tsx:367-395 | acts or sections become the parsed list, empty entries dropped |
| UploadWizard.Wizard.EditInformant | src/components/document-upload-wizard.tsx:491-525 | one informant field is set, creating the informant when missing |
| UploadWizard.Wizard.EditYear | src/components/document-upload-wizard.tsx:331-336 | the FIR year becomes `null` for an empty box, else `parseInt || null` |
| UploadWizard.Wizard.EditDate | src/components/document-upload-wizard.tsx:91-96 | `handleDateChange` stores the ISO value or `null` |
| Analytics.TalliesCoverAll | src/app/analytics/page.tsx:105-108 | the per-status counts add up to the number of documents |
| Analytics.TallyStatuses | src/app/analytics/page.tsx:105-108 | the tally has exactly the statuses present, in first-seen order, each with its number of occurrences |
| Analytics.SliceValuesAreCounts | src/app/analytics/page.tsx:110-113 | the chart's values are the tally's counts |
| Analytics.StatusChartSpec | src/app/analytics/page.tsx:105-113 | one slice per distinct status, each positive, summing to the number of documents |
| Analytics.StatusSlices | src/app/analytics/page.tsx:110-113 | the `Object.entries(...).map` loop builds the status chart |
| Analytics.TallyMonths | src/app/analytics/page.tsx:130-142 | each month present gets documents and cases both equal to its occurrences |
| Analytics.TakeLast | src/app/analytics/page.tsx:145 | `slice(-n)` keeps the last `min(n, length)` entries |
| Analytics.ShownMonthsSpec | src/app/analytics/page.tsx:145 | at most six months are shown, ascending, all present, and every month left out is earlier. None are shown only when there are no documents |
| Analytics.ZeroMonths | src/app/analytics/page.tsx:153-163 | six zero rows, from five months back to the current month |
| Analytics.MonthlyRows | src/app/analytics/page.tsx:144-163 | the monthly chart of the months shown, or six zero rows when there are none |
| Analytics.NewestFive | src/app/analytics/page.tsx:118-120 | `min(5, n)` documents, newest first, taken from the list, and none left out is newer than one shown |
| Analytics.RecentActivitySpec | src/app/analytics/page.tsx:118-125 | one "Document Added" row per document of the newest five, in order |
| Analytics.FindStatus | src/app/analytics/page.tsx:66-68 | a found entry is a listed entry with that status; nothing found means no entry has the status and none is `null`; a throw means a `null` is listed |
| Analytics.FindStatusFirstStop | src/app/analytics/page.tsx:66-68 | the search ends at the first entry that matches or is `null`: the first match is found unless a `null` comes before it, which throws; with neither, nothing is found |
| Analytics.StatusCount | src/app/analytics/page.tsx:66-68 | a status count is the entry's `count` or 0. A missing list gives 0. A non-array list throws |
| Analytics.PayloadStats | src/app/analytics/page.tsx:63-71 | each headline number is the payload's field or 0, and total cases falls back to total documents |
| Analytics.ReadPrimary | src/app/analytics/page.tsx:57-71 | the payload is used exactly when the reply is a non-empty array whose first row is an object with a non-null `payload` whose status lookups do not throw, and it is that row's `payload`. The lists are fetched instead exactly when the reply is neither a non-empty array nor a non-empty string. Every other case, a failed request included, throws |
| Analytics.ComputedStats | src/app/analytics/page.tsx:89-102 | computed numbers: the list lengths and the three status counts |
| Analytics.StatusCountsWithinTotal | src/app/analytics/page.tsx:89-99 | processing, ready and error documents together never outnumber the documents |
| Analytics.TalliesWithinLength | src/app/analytics/page.tsx:89-91 | the counts of distinct keys add up to at most the list length |
| Analytics.MonthKeys | src/app/analytics/page.tsx:132-134 | one month key per document |
| Analytics.AnalyticsPage.constructor | src/app/analytics/page.tsx:23-39 | zero stats and empty charts |
| Analytics.AnalyticsPage.ShowPayload | src/app/analytics/page.tsx:63-80 | the payload's stats, and each chart taken from the payload or empty |
| Analytics.AnalyticsPage.ShowComputed | src/app/analytics/page.tsx:88-165 | the computed stats, status chart, newest five and months, the months tallied after the in-place sort |
| Analytics.AnalyticsPage.ShowNothing | src/app/analytics/page.tsx:258-275 | zero stats and every chart empty |
| Analytics.AnalyticsPage.FetchAnalytics | src/app/analytics/page.tsx:54-278 | picks between the payload, the first list fetch, the fallback fetch and the empty state, as the `try`/`catch` chain does. With the payload, every stat and chart is the payload's. With lists, the stats, status chart, newest five and months are computed from them, and the four top-N charts are left as they were. Otherwise every stat is 0 and every chart empty |
| Dashboard.TypeTag | src/app/page.tsx:60-77 | the `type` tag is "document" exactly for documents and "folder" exactly for folders |
| Dashboard.DocItem | src/app/page.tsx:60-67 | a document's action is "Document processed" exactly when it is ready, else "New document added" |
| Dashboard.FolderItem | src/app/page.tsx:70-77 | a folder's action is "New folder created" at its creation time |
| Dashboard.BuildFeed | src/app/page.tsx:57-77 | the two `forEach` loops push every document, then every folder, once each |
| Dashboard.TopThreeSpec | src/app/page.tsx:80-82 | `min(3, n)` entries, newest first, and none left out is newer than one shown |
| Sorting.SortDescSpec | src/app/page.tsx:80-81 | the newest-first sort returns a permutation of its input, ordered by descending time |
| Sorting.TopN | src/app/analytics/page.tsx:119-120 | `sort` then `slice(0, n)` keeps `min(n, length)` entries, newest first, taken from the input, none left out newer than one kept |
| Sorting.SortAscSpec | src/app/analytics/page.tsx:145 | `Object.keys(...).sort()` of distinct keys is a strictly ascending permutation of them |
| Sorting.LastAreGreatest | src/app/analytics/page.tsx:145 | after the ascending sort, every key that `slice(-6)` drops is less than every key it keeps |
| Text.DecimalInjective | src/app/chat/page.tsx:108 | two different clock readings never give the same message id |
| UploadForm.ParseVehicleLine | src/app/documents/upload/page.tsx:578-580 | a parsed vehicle's type is either absent (`null`) or a non-empty text |
| Dashboard.DashboardPage.constructor | src/app/page.tsx:26-33 | zero stats and an empty feed |
| Dashboard.DashboardPage.FetchStats | src/app/page.tsx:39-97 | the counts equal the filter lengths and the feed is the top three. A failure gives zeros and an empty feed |
| Search.EmptyFilters | src/app/search/page.tsx:47-58 | exactly the ten filters, all empty |
| Search.SearchParams | src/app/search/page.tsx:89-101 | a parameter is present exactly when its source is non-empty, and then holds it; the query goes untrimmed as `q`, the IPC sections only as `sections`, and every other filter under its own name exactly when it is set |
| Search.NamesNeverSent | src/app/search/page.tsx:98-103 | the accused and victim names never change the request |
| Search.NameOnlySearchIsUnfiltered | src/app/search/page.tsx:84-103 | a search on an accused name alone goes ahead but sends no parameter |
| Search.SearchPage.constructor | src/app/search/page.tsx:43-60 | empty query, results and filters |
| Search.SearchPage.FetchFolders | src/app/search/page.tsx:75-82 | folders replaced on success, kept on failure |
| Search.SearchPage.SetQuery | src/app/search/page.tsx:158 | the query takes the text typed |
| Search.SearchPage.ToggleFilters | src/app/search/page.tsx:171 | the filter panel flips |
| Search.SearchPage.BeginSearch | src/app/search/page.tsx:84-101 | a blank query with no filter does nothing; otherwise loading starts and the parameters are sent |
| Search.SearchPage.EndSearch | src/app/search/page.tsx:103-109 | results replaced on success, kept on failure; loading ends |
| Search.SearchPage.ClearFilters | src/app/search/page.tsx:116-131 | filters, query and results emptied; a search right after does nothing |
| Search.SearchPage.FilterChange | src/app/search/page.tsx:133-138 | one filter changes, and filters are active exactly when it or another is non-empty |
| Chat.ScopePayload | src/app/chat/page.tsx:86-89 | the scope object is `null` for the global scope, and otherwise carries only the ids of its own kind |
| Chat.ScopeIgnoresOtherKind | src/app/chat/page.tsx:124-127 | the ids of the other kind never reach the request, and at most one id list is non-empty |
| Chat.UserMessage | src/app/chat/page.tsx:107-112 | the user's message carries the input untrimmed, the send time as id, and the send timestamp |
| Chat.AssistantMessage | src/app/chat/page.tsx:132-148 | the server's message on success. On failure: the error text or the apology, with id failure time + 1 |
| Chat.LocalIdsDistinct | src/app/chat/page.tsx:107-148 | a local error message never takes the id of the user's message it answers, nor "welcome" |
| Chat.ChatPage.constructor | src/app/chat/page.tsx:39-54 | the greeting with id "1", no conversation, the global scope |
| Chat.ChatPage.BeginCreate | src/app/chat/page.tsx:85-90 | the conversation request carries the scope object |
| Chat.ChatPage.EndCreate | src/app/chat/page.tsx:91-101 | a new conversation's id is stored and the list restarts from the welcome message; a failure changes nothing |
| Chat.ChatPage.SetInput | src/app/chat/page.tsx:254 | the input takes the text typed |
| Chat.ChatPage.BeginSend | src/app/chat/page.tsx:105-129 | a blank input or no conversation does nothing. Otherwise exactly one user message is appended, the input cleared, loading started, and the input sent with the scope |
| Chat.ChatPage.KeyPress | src/app/chat/page.tsx:156-161 | Enter without Shift sends; any other key does nothing |
| Chat.ChatPage.EndSend | src/app/chat/page.tsx:131-152 | exactly one assistant message is appended; loading ends either way |
| Chat.Exchange | src/app/chat/page.tsx:115-149 | a whole exchange adds the user's message then the assistant's, keeping the history as a prefix |
| Chat.ExchangeAlternates | src/app/chat/page.tsx:104-153 | after any exchange the conversation still alternates user, assistant |
| PdfViewer.EntryPage | src/components/pdf-viewer.tsx:144 | a NaN or 0 typed into the page box means page 1 |
| PdfViewer.InitialInv | src/components/pdf-viewer.tsx:31-36 | the viewer starts on page 1, unrotated, with Prev and Next disabled |
| PdfViewer.InvPreserved | src/components/pdf-viewer.tsx:55-87 | every event keeps the page within 1 and a known count, and the rotation a quarter turn |
| PdfViewer.GoToSpec | src/components/pdf-viewer.tsx:68-72 | a page request is taken exactly when the page is between 1 and a known count |
| PdfViewer.PrevSpec | src/components/pdf-viewer.tsx:133-134 | Prev does nothing exactly when disabled, and otherwise goes back one page |
| PdfViewer.NextSpec | src/components/pdf-viewer.tsx:152-153 | Next does nothing exactly when disabled, and otherwise goes forward one page |
| PdfViewer.EnterBlankGoesToFirst | src/components/pdf-viewer.tsx:144 | clearing the page box or typing 0 goes to page 1 once the count is known |
| PdfViewer.FourRotations | src/components/pdf-viewer.tsx:85-87 | four quarter turns restore the rotation |
| PdfViewer.StuckWhileLoading | src/components/pdf-viewer.tsx:161-176 | as written, from a loading state no event sequence ends loading or sets a page count |
| PdfViewer.NeverLoads | src/components/pdf-viewer.tsx:161-176 | as written, the viewer never leaves "Loading PDF document..." |
| PdfViewer.FixedLoads | src/components/pdf-viewer.tsx:55-65 | with the document element mounted while loading, the library's report ends loading, with the count or the error |
| PdfViewer.FixedReachesEveryPage | src/components/pdf-viewer.tsx:139-146 | with that rendering, every page from 1 to the count can be reached from the page box |
| PdfViewer.Viewer.constructor | src/components/pdf-viewer.tsx:31-37 | the initial viewer state and no page text |
| PdfViewer.Viewer.FetchPages | src/components/pdf-viewer.tsx:40-52 | the page text is stored on success and left empty on failure |
| PdfViewer.Viewer.LoadSuccess | src/components/pdf-viewer.tsx:55-58 | performs the Loaded transition |
| PdfViewer.Viewer.LoadError | src/components/pdf-viewer.tsx:61-65 | performs the Failed transition |
| PdfViewer.Viewer.GoToPage | src/components/pdf-viewer.tsx:68-72 | performs the guarded page change |
| PdfViewer.Viewer.PrevPage | src/components/pdf-viewer.tsx:133 | performs Prev and keeps the invariant |
| PdfViewer.Viewer.NextPage | src/components/pdf-viewer.tsx:152 | performs Next and keeps the invariant |
| PdfViewer.Viewer.EnterPage | src/components/pdf-viewer.tsx:144 | performs the page-box request and keeps the invariant |
| PdfViewer.Viewer.RotatePage | src/components/pdf-viewer.tsx:85-87 | performs the quarter turn and keeps the invariant |
| PdfViewer.TempViewer.constructor | src/components/pdf-viewer-temp.tsx:19-22 | the initial viewer state |
| PdfViewer.TempViewer.LoadSuccess | src/components/pdf-viewer-temp.tsx:24-27 | performs the Loaded transition |
| PdfViewer.TempViewer.LoadError | src/components/pdf-viewer-temp.tsx:29-33 | performs the Failed transition |
| PdfViewer.TempViewer.GoToPage | src/components/pdf-viewer-temp.tsx:35-39 | performs the guarded page change |
| PdfViewer.TempViewer.PrevPage | src/components/pdf-viewer-temp.tsx:63-64 | performs Prev and keeps the invariant |
| PdfViewer.TempViewer.NextPage | src/components/pdf-viewer-temp.tsx:74-75 | performs Next and keeps the invariant |

## Left out

- `fetch`, `FormData`, the router, `window.location` and the console: what the server answered is an input, and a navigation is a recorded route.
- The clock (`Date.now()`, `new Date().toISOString()`), `toLocaleString`, `toLocaleDateString`, the month key and the date inputs' conversion are parameters.
- `parseInt` is a parameter: its result is given as an optional integer.
- FormUrlEncoding.ParseSerialize: the reference parser stops at UTF-8 bytes. Decoding them back into characters is not modelled.
- FormUrlEncoding.Utf8: a Dafny `char` is a Unicode scalar value, so the lone surrogates that `URLSearchParams` replaces with U+FFFD cannot occur.
- Sort stability is not claimed. Sorts are specified by order, permutation and, for the top-N lists, the fact that nothing left out beats anything kept.
- JavaScript's ordering of integer-like object keys in `Object.entries`/`Object.keys` is not modelled. Tallies list statuses and months in first-seen order.
- Api.BuildQuery: the twelve sequential `if … append` statements are one loop over the key list.
- Async handlers are split at their single `await`. Interleavings of two handlers in flight at once are not modelled.
- The buttons disabled while a request is in flight are not modelled. These are the chat's input and Send button (`disabled={isLoading}`) and the upload pages' Back and Save buttons (`disabled={saving}`). So `Chat.ChatPage.BeginSend` may start while a send is pending, and the user/assistant alternation is proved of one whole exchange (`Chat.Exchange`), not of interleaved `BeginSend` and `EndSend` calls.
- Floating point: the viewer's zoom factor, confidence percentages and file sizes are not modelled.
- JSX rendering, icons, charts, dialogs and the date display formatting (`formatDate`, `formatDateForInput`) are not modelled.
- Case folding in the documents search is ASCII only, and so is the capital letter of `Analytics.Capitalize`; `toUpperCase` maps the full Unicode range, and `charAt(0)` takes one UTF-16 code unit rather than one character.
- `foldersMap` in the documents page is built but never read, and is not modelled.
- Api.HttpErrorMessage: an `error` field in a failed reply's body is used only when it is a non-empty string. Other truthy values would be converted to text by `new Error`, and are not modelled.
- UploadForm.FormOf: the page keeps a truthy `metadata` that is not an object as the form itself. The model holds what that value spreads into the edits that follow: a string's characters, an array's items, nothing for a number or `true`. A form of that kind saved before any edit is therefore sent as that object rather than as the original value.
- UploadForm.EditNested, UploadForm.Prefill: a spread string contributes one property per character, where JavaScript gives one per UTF-16 code unit.
- FolderTree.BuildPath, FolderTree.DocumentsPage.OpenInitialFolder: both model the page's walk only where it ends. On a `parent_id` cycle the page's loop never ends (see "## Findings"), and these two members require a walk that ends.
- Dashboard.DashboardPage.FetchStats: timestamps are valid integer milliseconds. On a missing or unparsable `created_at`, `new Date(…).toISOString()` throws a RangeError. That sends `fetchStats` to its `catch`: zero counts and an empty feed. This path is not modelled, and neither is the NaN such a date gives the newest-first comparators of the dashboard and analytics sorts.
- Name and vehicle displays read string fields only.
- Analytics.ReadPrimary: the `length` of a reply that is a JSON object with a numeric `length` field is not modelled.
- `apiClient` endpoints that no core page calls are not modelled. These are `getById`, `update`, `getDetails`, `updateDetails`, `getMetadata`, `updateMetadata`, `vectorSearch`, `getChunks`, `getConversation`, `getConversations` and `refreshAnalytics`.
- The chat scope selector was removed from the page, so the scope never leaves the global default. The scope object is modelled for every scope kind.

## Findings

| source | as written | input that shows it | evidently intended | confidence | as-written member | corrected member |
|---|---|---|---|---|---|---|
| src/components/pdf-viewer.tsx:161-176 | `<Document>`, whose load callbacks are the only code that clears `loading`, is rendered only in the last branch of `error ? … : loading ? … : …`. So it never mounts while `loading` is true | any document: the viewer starts with `loading = true` | the document element is mounted while loading, and the loading message is shown until the library reports | high; not executed | PdfViewer.NeverLoads | PdfViewer.FixedLoads |
| src/components/pdf-viewer-temp.tsx:49-85 | the same ternary: the preview's `<Document>` sits behind `loading`, which only its own callbacks clear | any uploaded file in the review step | as above | high; not executed | PdfViewer.StuckWhileLoading | PdfViewer.FixedReachesEveryPage |
| src/app/documents/page.tsx:94-106 | `while (currentFolderId)` follows `parent_id` with no check for a folder already on the path, so a `parent_id` cycle never ends the loop and the tab hangs | a folder `{id: "a", parent_id: "a"}` opened with `?folder=a` | stop before a folder already on the path, and show the path built so far | medium; not executed | FolderTree.SelfParentNeverEnds | FolderTree.GuardedBreadcrumbsSpec |
