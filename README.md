# Re:CNXT agency CRM — a Dafny model of its record logic

The CRM is a browser-only React application. It keeps one list of client records, each with
projects, tasks and AI-generated mockups, and saves that list to the browser's local storage
after every change. This project models the logic behind the screens:

- the client detail view's handlers (`ClientDetail`), which turn the client being shown into the
  record handed to `onUpdate`;
- the progress formula and link normalisation (`ClientDetail`);
- the application shell (`AppShell`). It holds the client list and the selection in a class,
  runs the session check at mount, and saves the list after every change;
- the client directory's search filter and registration form (`ClientList`);
- the dashboard figures (`Dashboard`);
- the kanban board's flattening and columns (`ProjectBoard`);
- the storage facade over the browser's key-value store (`Storage`, a class over a map);
- the extraction of a Drive/Sheets id from a link (`GoogleIds`).

Shared pieces:

- `Types` holds the records of `types.ts`, plus the optional project `notes` and `estimatedCost`
  that the detail view reads and writes.
- `Seed` holds the three seed clients.
- `Seqs` holds a generic order-preserving filter with its subsequence, membership and
  multiplicity properties.
- `Text` models ASCII whitespace trimming, ASCII lower-casing and substring search.
- `Wrappers` holds `Option`.

Where the source is pure (the handlers, the filters, the folds, the id extraction), the model uses
functions over datatypes. Where it changes state (the React component state of the shell and
of the detail view, the browser store), the model uses classes whose methods state the whole new
state. `updateClient`'s `findIndex` scan is a method with a loop. Its in-place `clients[index] =`
assignment is done on an array.

Ids and timestamps come from `Date.now()` and `new Date()`, so every operation that creates
them takes them as parameters. The answers to `window.prompt` and the image service's reply are
parameters too. The access key from the environment is an `Option<string>` field of the shell.

## Model

| member | source | states |
|---|---|---|
| Text.Trim | components/ClientDetailView.tsx:147 | `trim()` is a slice of its input, neither starting nor ending with whitespace, with only whitespace cut off on either side |
| Text.TrimEmptyIffBlank | components/ClientDetailView.tsx:147 | a string trims to empty exactly when every character is whitespace |
| Text.ToLower | components/ClientList.tsx:27-28 | lower-casing keeps the length and maps A–Z to a–z, leaving every other character alone |
| Text.Contains | components/ClientList.tsx:27-28 | `includes`: a needle longer than the haystack is never found, and a prefix always is |
| Text.ContainsIffOccurs | components/ClientList.tsx:27-28 | `includes` holds exactly when the needle occurs at some position of the haystack |
| Seqs.Filter | components/ClientList.tsx:26-31 | `filter` keeps exactly the elements satisfying the test, in order (an order-preserving subsequence), each as often as in the input |
| ClientDetail.CompletedCount | components/ClientDetailView.tsx:142 | the completed-task count never exceeds the number of tasks |
| ClientDetail.RoundedPercent | components/ClientDetailView.tsx:143 | the rounded percentage lies in 0..100 and is the integer nearest 100·c/n, halves rounded up |
| ClientDetail.CalculateProgress | components/ClientDetailView.tsx:140-144 | progress is 0 with no tasks or none done, 100 when all are done, always in 0..100, and otherwise the nearest integer to the completed share |
| ClientDetail.SeedProgressOutOfSync | constants.tsx:15-28 | the first seeded project stores 65% while its tasks give 50%, so stored progress is not always the formula's value |
| ClientDetail.EnsureProtocol | components/ClientDetailView.tsx:118-124 | blank gives ''; otherwise the result starts with `http://` or `https://`; the input is kept exactly when it already has one of those prefixes, and otherwise gets `https://` in front |
| ClientDetail.EnsureProtocolIdempotent | components/ClientDetailView.tsx:118-124 | normalising twice equals normalising once |
| ClientDetail.MapProject | components/ClientDetailView.tsx:127-129 | the project list keeps its length; projects with the id get the edit, all others are untouched |
| ClientDetail.HandleAddTask | components/ClientDetailView.tsx:146-156 | no update exactly when the title is blank; otherwise each project with the id gains one task at the end (untrimmed title, not completed) and fresh progress, other projects and other client fields unchanged |
| ClientDetail.ToggleTasks | components/ClientDetailView.tsx:161-163 | the task list keeps its length and every field but `completed`, which flips exactly on tasks with the id |
| ClientDetail.HandleToggleTask | components/ClientDetailView.tsx:158-169 | each project with the id gets the toggled list and its progress; nothing else changes |
| ClientDetail.RemoveTasks | components/ClientDetailView.tsx:174 | the tasks with the id are all removed; the rest stay in order with their multiplicities |
| ClientDetail.HandleDeleteTask | components/ClientDetailView.tsx:171-180 | each project with the id gets the filtered list and its progress; nothing else changes |
| ClientDetail.HandleUpdateProjectNotes | components/ClientDetailView.tsx:126-131 | each project with the id gets the notes and keeps every other field; nothing else changes |
| ClientDetail.HandleUpdateProjectStatus | components/ClientDetailView.tsx:133-138 | each project with the id gets the status and keeps every other field; nothing else changes |
| ClientDetail.HandleLinkResource | components/ClientDetailView.tsx:100-111 | no update exactly when the prompt was cancelled or answered blank; otherwise only `driveLink` (drive) or only `sheetLink` (sheet) is set, to the answer as typed, on projects with the id |
| ClientDetail.HandleStatusChange | components/ClientDetailView.tsx:46-48 | the client's status is replaced and every other field kept |
| ClientDetail.HandleAddProject | components/ClientDetailView.tsx:76-90 | exactly one project is appended (Planning, 0%, no tasks, in sync, fields from the form); existing projects and other client fields are unchanged |
| ClientDetail.MockupsOf | components/ClientDetailView.tsx:67 | `client.mockups \|\| []`: the stored mockups, or none when the field is absent |
| ClientDetail.HandleGenerateMockup | components/ClientDetailView.tsx:56-74 | an update exactly when the prompt is non-empty and a non-empty image came back; it then appends one mockup with that prompt and image to the mockups (or to `[]`) and changes nothing else |
| ClientDetail.ToggleTwice | components/ClientDetailView.tsx:158-169 | toggling a task twice restores every task list; touched projects get their tasks' progress, so a client whose touched projects were in sync is restored exactly |
| ClientDetail.AddThenDeleteTask | components/ClientDetailView.tsx:146-180 | deleting a just-added task with a fresh id gives back the original task lists |
| ClientDetail.DeleteTaskIdempotent | components/ClientDetailView.tsx:171-180 | deleting the same task again changes nothing |
| ClientDetail.NotesLastWriteWins | components/ClientDetailView.tsx:126-131 | of two note edits to one project, the later wins |
| ClientDetail.StatusLastWriteWins | components/ClientDetailView.tsx:133-138 | of two status edits to one project, the later wins |
| ClientDetail.FreshProjectForm | components/ClientDetailView.tsx:21-26 | the initial and post-submit add-project form: empty name, Website, today's date, the Website default cost |
| ClientDetail.DetailView.constructor | components/ClientDetailView.tsx:20-29 | initial form state: fresh form, dialog closed, empty prompt, not generating, nothing in flight |
| ClientDetail.DetailView.OpenAddProject | components/ClientDetailView.tsx:366 | the dialog opens on the form as it was left, not on a fresh one |
| ClientDetail.DetailView.CloseAddProject | components/ClientDetailView.tsx:564-568 | the dialog closes and the form keeps its edits |
| ClientDetail.DetailView.ChooseProjectType | components/ClientDetailView.tsx:590-596 | picking a type also sets the form's cost to that type's default; other form fields kept |
| ClientDetail.DetailView.SubmitProject | components/ClientDetailView.tsx:76-98 | sends the add-project record built from the form as it was, closes the dialog and resets the form |
| ClientDetail.DetailView.TypePrompt | components/ClientDetailView.tsx:320 | typing sets the prompt box |
| ClientDetail.DetailView.StartMockup | components/ClientDetailView.tsx:56-59 | callable only while idle, as the button is disabled while busy (line 324); with an empty prompt nothing starts and nothing changes; otherwise the view turns busy and captures the client shown and the prompt |
| ClientDetail.DetailView.FinishMockup | components/ClientDetailView.tsx:59-73 | the update is `HandleGenerateMockup` of the client and prompt captured at the start, whatever happened meanwhile; the prompt box, even if retyped, is cleared exactly when an update is sent; the view ends idle |
| Storage.LoadClients | services/storageService.ts:9-17 | the stored list, or the seed clients when nothing is stored |
| Storage.Seeded | services/storageService.ts:10-15 | the seed list is written only when no list is stored; every other key is kept |
| Storage.DefaultProfile | services/storageService.ts:26-31 | the default profile is Re:CNXT Agency, https://re-cnxt.agency, Pro, backed up now |
| Storage.FirstIndex | services/storageService.ts:50 | the least index holding the id, or -1 exactly when no client has it |
| Storage.ReplaceFirst | services/storageService.ts:48-53 | only the first client with the id is replaced; with no match the list is unchanged |
| Storage.FindIndex | services/storageService.ts:50 | the left-to-right scan returns the first matching index, or -1 |
| Storage.LocalStore.GetClients | services/storageService.ts:9-17 | returns the stored list; an empty store is first given the seed clients, which are returned |
| Storage.LocalStore.SaveClients | services/storageService.ts:19-21 | overwrites the clients entry and no other; loading then gives the saved list |
| Storage.LocalStore.GetProfile | services/storageService.ts:23-36 | returns the stored profile unchanged, or saves and returns the default profile |
| Storage.LocalStore.SaveProfile | services/storageService.ts:38-40 | overwrites the profile entry only; the clients entry is untouched |
| Storage.LocalStore.AddClient | services/storageService.ts:42-46 | the (possibly seeded) stored list gains the client at the end; its length grows by one |
| Storage.LocalStore.UpdateClient | services/storageService.ts:48-55 | the first stored client with the id is replaced in place and the list saved; with no match nothing is written beyond the seeding |
| Storage.LocalStore.SetSession | App.tsx:38 | writes the session entry only |
| Storage.SaveThenLoad | services/storageService.ts:16-21 | after a save, loading returns the saved list and seeding writes nothing |
| Storage.KeysDistinct | services/storageService.ts:5-6 | the clients, profile and session keys differ, so writing one never changes another |
| Storage.ReplaceFirstKeepsLaterDuplicates | services/storageService.ts:48-53 | a later client with the same id is left as it was |
| AppShell.SessionValid | App.tsx:25-28 | the session check: a session is stored and equals the master key |
| AppShell.MasterKey | App.tsx:26 | the configured key when it is set and non-empty, otherwise `admin123` |
| AppShell.ReplaceById | App.tsx:43 | length, order and ids kept; every client with the id becomes the update, all others untouched |
| AppShell.RemoveById | App.tsx:59 | every client with the id is removed; the rest stay in order with their multiplicities |
| AppShell.ReplaceAbsentId | App.tsx:43 | updating with an id no client has changes nothing |
| AppShell.RemoveAbsentId | App.tsx:59 | deleting an id no client has changes nothing |
| AppShell.RemoveIdempotent | App.tsx:59 | after a delete no client has the id, and deleting again changes nothing |
| AppShell.ReplaceByIdVsReplaceFirst | App.tsx:43 | the shell's update and the store's update agree when the id occurs at most once, and differ when a later duplicate would change |
| AppShell.MockupOverwritesConcurrentEdit | components/ClientDetailView.tsx:59-68 | the mockup update carries the projects and status captured when generation started, so replacing by id undoes any project edit sent meanwhile |
| AppShell.ToggleDuringMockupIsLost | components/ClientDetailView.tsx:59-68 | on the first seed client, a task toggled during generation is toggled back when the mockup update lands |
| AppShell.MockupUndoesConcurrentDelete | App.tsx:42-49 | applied to the list held at the click, the mockup update brings back a client deleted meanwhile, which the current list no longer has |
| AppShell.MockupDropsConcurrentAdd | App.tsx:42-49 | applied to the list held at the click, the mockup update drops a client added meanwhile |
| AppShell.DeleteDuringMockupIsUndone | components/ClientDetailView.tsx:59-68 | on the first seed client: after a delete no client has its id, but the update held across the wait puts it back |
| AppShell.App.constructor | App.tsx:17-21 | initial state: not authenticated, loading, no clients, nothing selected |
| AppShell.App.Mount | App.tsx:24-35 | run from the initial state: authenticated exactly when the stored session equals the master key; the loaded (possibly seeded) list is held and saved; loading ends |
| AppShell.App.Login | App.tsx:37-40 | stores the key as the session and lets the user in; the list is untouched |
| AppShell.App.UpdateClientFrom | App.tsx:42-49 | the update callback of an earlier render, as a mockup generation holds it (components/ClientDetailView.tsx:68): replaces by id in the list of that render, saves the result, and selects the update when that render's selection had its id |
| AppShell.App.UpdateClient | App.tsx:42-50 | the list is replaced by id and saved; the selection becomes the update only when its id matches; a listed selection stays listed |
| AppShell.App.AddClient | App.tsx:52-56 | the client is appended with no duplicate check and the list saved |
| AppShell.App.DeleteClient | App.tsx:58-63 | every client with the id is removed, the list saved, the selection cleared |
| AppShell.App.Select | App.tsx:97 | a picked client becomes the selection |
| AppShell.App.Back | App.tsx:90 | the selection is cleared |
| ProjectBoard.Tag | components/ProjectBoard.tsx:11 | each entry keeps its project whole and carries the client's name and company |
| ProjectBoard.AllProjects | components/ProjectBoard.tsx:10-12 | the flattened length is the total project count |
| ProjectBoard.AllProjectsAt | components/ProjectBoard.tsx:10-12 | client-major order: project j of client i sits at the count of the earlier clients' projects plus j |
| ProjectBoard.AllProjectsFrom | components/ProjectBoard.tsx:10-12 | every entry is some client's project tagged with that client |
| ProjectBoard.AllProjectsAppend | components/ProjectBoard.tsx:10-12 | flattening distributes over concatenated client lists |
| ProjectBoard.ColumnsShape | components/ProjectBoard.tsx:14-19 | four columns, Planning, In Progress, In Review, Completed, in that order; On Hold has none |
| ProjectBoard.Column | components/ProjectBoard.tsx:42 | a column is the order-preserving subsequence of exactly the entries with its status, with their multiplicities |
| ProjectBoard.ColumnCountsSum | components/ProjectBoard.tsx:14-19 | the four badges sum to the entry count less the On Hold entries |
| ClientList.MatchesSearch | components/ClientList.tsx:27-28 | the name or company contains the term, ignoring case; an empty term matches every client |
| ClientList.MatchesFilter | components/ClientList.tsx:29 | the filter admits a client when it is All or equals the client's status |
| ClientList.FilteredClients | components/ClientList.tsx:26-31 | an order-preserving subsequence holding a client exactly when its name or company contains the term, ignoring case, and the filter is All or its status; a status filter admits no other status |
| ClientList.EmptySearchShowsAll | components/ClientList.tsx:26-31 | an empty search with All lists every client |
| ClientList.MatchesSearchIff | components/ClientList.tsx:27-28 | the search test holds exactly when the lower-cased term occurs in the lower-cased name or company |
| ClientList.FormDefaults | components/ClientList.tsx:17-24 | the form starts empty with Fresh Start; it offers Fresh Start, In Motion and On Deck only |
| ClientList.Submit | components/ClientList.tsx:33-45 | the new client copies the form, has the given id and time, no revenue, no projects, no mockups; the form is reset |
| Dashboard.OpenInClient | components/Dashboard.tsx:17 | a client's open count never exceeds its project count |
| Dashboard.OpenProjects | components/Dashboard.tsx:16-17 | the figure is the project count less the Completed ones, so at most the project count |
| Dashboard.OpenFrom | components/Dashboard.tsx:16-17 | the left fold is its start value plus the reference sum of the per-client open counts |
| Dashboard.OpenSumCounts | components/Dashboard.tsx:16-17 | open projects plus the Completed column make up every project |
| Dashboard.OpenPlusCompleted | components/Dashboard.tsx:17 | within one client, open and Completed projects partition the projects |
| Dashboard.OpenProjectsIncludesOnHold | components/Dashboard.tsx:16-17 | the figure is the Planning, In Progress, In Review and On Hold counts together |
| Dashboard.TotalRevenue | components/Dashboard.tsx:19 | the revenue fold is the sum of the clients' revenue, 0 for no clients |
| Dashboard.RevenueFrom | components/Dashboard.tsx:19 | the left fold is its start value plus the reference sum of the clients' revenue |
| Dashboard.RevenueSumAppend | components/Dashboard.tsx:19 | revenue adds up over concatenated client lists |
| Dashboard.SubmittedClientAddsNoRevenue | components/ClientList.tsx:35-41 | registering a client leaves the revenue figure unchanged |
| Dashboard.ActiveClients | components/Dashboard.tsx:45 | at most the client count; 0 exactly when no client is In Motion, all exactly when every client is |
| Dashboard.RecentLeads | components/Dashboard.tsx:108 | the order-preserving subsequence of exactly the Fresh Start clients |
| Dashboard.RevenueData | components/Dashboard.tsx:21-25 | three points: Jan 4200, Feb 5800, Mar the total revenue |
| GoogleIds.RunLength | services/googleService.ts:23 | the greedy run from a position stays in bounds, holds only id characters and stops at a non-id character or the end |
| GoogleIds.FirstRunStart | services/googleService.ts:23 | the leftmost start of a 25-character window of id characters, or -1 when there is none |
| GoogleIds.ExtractIdFromUrl | services/googleService.ts:22-25 | no match gives the input; otherwise a contiguous slice of at least 25 id characters, starting leftmost and maximal on both sides |
| GoogleIds.RunUnique | services/googleService.ts:23 | a leftmost maximal run is unique |
| GoogleIds.ExtractIsTheRun | services/googleService.ts:23 | whenever a leftmost maximal run exists, the result is that run |
| GoogleIds.WholeRunUnchanged | services/googleService.ts:23 | an input that is one whole run of 25 or more id characters is returned unchanged |
| GoogleIds.ExtractIdempotent | services/googleService.ts:22-25 | extracting twice equals extracting once |

## Left out

- Rendering, styling, modals, the tab switch and the analysis and email-draft panels are UI, so they are not modelled.
- The generative-AI service is a foreign SDK. An image request's result is an `Option<string>` input.
- The Login, Settings, Sidebar, WorkspaceSettings and Prospector components are not modelled. They are UI, environment configuration or OAuth glue.
- The Google OAuth client (`init`, `connect`, `createClientFolder`) is not modelled. It consists of browser globals and `fetch`.
- `JSON.stringify`/`JSON.parse` are taken as the identity. The JSON round trip of a stored list is assumed, not modelled.
- The dashboard's workspace-configuration read is not modelled.
- Ids and timestamps from `Date.now()` and `new Date()` are parameters. Nothing assumes they are unique.
- Client, project and task ids are used as if unique, but nothing enforces that. `AddClient` has no duplicate check, and the model keeps duplicates wherever the code does.
- `window.confirm` before a delete is outside the model. `AppShell.App.DeleteClient` is the handler that runs once the user has confirmed.
- `alert` and clipboard calls are not modelled.
- The failed-image `alert` branch is only the no-update case of `HandleGenerateMockup`.
- ClientDetail.CalculateProgress: it rounds in exact arithmetic, (200c + n) div 2n. Floating-point effects of `Math.round(c / n * 100)` at .5 boundaries are not modelled.
- Text.ToLower: only A–Z are folded. Unicode case mapping is not modelled.
- Text.Trim: the whitespace set is space, tab, line feed, carriage return, vertical tab and form feed. Unicode whitespace is not included.
- The browser's `required` attribute on form inputs is not modelled. `Submit` accepts any form, as the handler itself does.
- `DEFAULT_SERVICE_COSTS` is imported by the detail view but not defined in `constants.tsx`. The model takes it as a function from project type to cost, given to the `DetailView` constructor.
- The cost field's `parseInt(value) || 0` text parsing is not modelled. The form holds an integer.
- The image request between `ClientDetail.DetailView.StartMockup` and `ClientDetail.DetailView.FinishMockup` is not modelled. Other handlers may run in between. The update callback the detail view holds is the one from the click's render, and `AppShell.App.UpdateClientFrom` applies the update to that render's list and selection, which undoes whatever happened meanwhile. Edits to the same client are lost (`AppShell.MockupOverwritesConcurrentEdit`), a deleted client comes back (`AppShell.MockupUndoesConcurrentDelete`), an added one is dropped (`AppShell.MockupDropsConcurrentAdd`), and the selection jumps back to the mockup's client. Which list and selection the callback holds is a parameter, because the model keeps no record of renders.
- Storage.LocalStore.GetClients: on an empty store, the code returns the `MOCK_CLIENTS` array itself. A later `addClient` or `updateClient` then mutates that shared array. The model copies values, so it does not capture this aliasing.
- React's batching of state updates is not modelled: each shell handler's assignments take effect at once.
- Storage.LocalStore.SaveClients: writes never fail in the model. In the browser, `setItem` throws once the store is full, and the mockups' `data:` URLs saved with every client fill it quickly. The `AppShell.App` handlers `UpdateClient`, `AddClient` and `DeleteClient` then keep the new list in memory, but the saved list is stale. `UpdateClient` and `DeleteClient` also skip their selection update, leaving a stale selection. The model's promise that the saved list equals the list in memory does not cover that case.
- Types: the `number` fields `progress`, `estimatedCost` and `totalRevenue` are unbounded integers. Every writer stores an integer, so fractions and floating-point limits are not modelled.
