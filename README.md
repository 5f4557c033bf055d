# Fullstack course exercises: validators, in-memory stores and state updates

This project models the logic in a set of full-stack course exercises:

- **Patientor back end.** Entries are validated with a zod discriminated union on `type`. The back end has an in-memory patient store and an Express router that validates, looks up and appends.
- **Runtime type guard.** A TypeScript example's `isValidApiResponse`.
- **Express notes server.** An in-memory `notes` array with max-plus-one ids.
- **Blog controller.** A Sequelize blog app's bearer-token check, owner-only delete, likes update, and search ordered by likes.
- **React component state.** The JSX is left out. The state and handlers are modelled for:
  - a phonebook;
  - an anecdote list;
  - four versions of a notes front end;
  - three counter demos;
  - the countries search.
- **Small pure pieces.** Loop and combinator equivalences, a `reduce` total, the countries view choice, and the fake weather service.

Each source file becomes one module:

- Pure code becomes datatypes, functions and lemmas.
- Module-level arrays and component state become classes. Their methods state the whole new state with `old(...)`.
- Loops in the source become methods with loop invariants, proved against a specification function.
- Untyped JavaScript values are the `Json` datatype. Objects are maps. A missing property (`undefined`) is `None`.
- Values the source draws from outside are method parameters: `uuid()`, `Math.random()`, `jwt.verify`, and server replies.

Two behaviours of the Patientor store worth noting:

- `getPublicPatients` strips only `ssn`. `ToPublic` drops exactly that field.
- `addPatient` builds `{ id: uuid(), ...entry }` from an unvalidated body. An `id` in the body therefore wins over the generated one (`NewPatient.bodyId`). A body without `entries` is stored without them, and a later `addEntry` on that patient throws the `TypeError` of `patient.entries.push`, which the entries route answers with 400 and the error's message.

## Model

| member | source | states |
|---|---|---|
| PatientEntry.ToNewEntry | Part9/5_Final_Patientor/backend/src/utils.ts:46-59 | succeeds exactly when the input is an object whose `type` names a variant and whose fields meet that variant's schema; the result's variant and fields equal the input's; a non-object and an unknown tag fail with the single issue zod reports; every failure carries issues |
| PatientEntry.RoundTrip | Part9/5_Final_Patientor/backend/src/utils.ts:12-58 | every well-formed entry of every variant, sent as its JSON body, parses back to itself |
| PatientEntry.UndeclaredKeyIgnored | Part9/5_Final_Patientor/backend/src/utils.ts:52-58 | a key no schema declares, such as `id`, does not change the parse result, so the entry never carries an id |
| PatientEntry.MatchesUnique | Part9/5_Final_Patientor/backend/src/utils.ts:52-58 | the field-by-field match with the input fixes the parsed entry |
| PatientEntry.MissingFieldNamed | Part9/5_Final_Patientor/backend/src/utils.ts:12-44 | a missing required field (including Hospital's `discharge`) fails with a type issue naming that field |
| PatientEntry.BadDateNamed | Part9/5_Final_Patientor/backend/src/utils.ts:15 | a `date` string that is not a calendar date fails with a string-format issue on `date` |
| PatientEntry.DateExamples | Part9/5_Final_Patientor/backend/src/utils.ts:15 | `YYYY-MM-DD` with real Gregorian days: leap days only in leap years, no 31 April, no single-digit month |
| PatientEntry.DaysInMonth | Part9/5_Final_Patientor/backend/src/utils.ts:15 | a month has 28 to 31 days, and 29 exactly for February of a leap year |
| PatientEntry.ParseDiagnosisCodes | Part9/5_Final_Patientor/backend/src/utils.ts:4-10 | `[]` when the input is not an object or lacks the key, otherwise the field unchanged |
| PatientEntry.ParseDiagnosisCodesUnchecked | Part9/5_Final_Patientor/backend/src/utils.ts:9 | the cast does not check: a number under `diagnosisCodes` comes back as it is, and an array input gives `[]` |
| PatientService.ToPublic | Part9/5_Final_Patientor/backend/src/services/patientService.ts:18 | every field of the patient except `ssn`, unchanged |
| PatientService.Find | Part9/5_Final_Patientor/backend/src/services/patientService.ts:21-24 | the index of the first patient with the id, or none exactly when no patient has it |
| PatientService.WithEntry | Part9/5_Final_Patientor/backend/src/services/patientService.ts:36-50 | the store after `addEntry`: the first patient with the id gets the entry pushed onto its `entries`; unchanged when there is none or it has no `entries` |
| PatientService.WithEntryEffect | Part9/5_Final_Patientor/backend/src/services/patientService.ts:36-50 | same length; without a patient to push onto nothing changes; otherwise only the first patient with the id changes, by one entry at the end |
| PatientService.AddedWithoutEntriesCannotPush | Part9/5_Final_Patientor/backend/src/services/patientService.ts:26-50 | a patient stored from a body without `entries` under a fresh id is the one `addEntry` finds, and the push onto it throws |
| PatientService.FindAfterWithEntry | Part9/5_Final_Patientor/backend/src/services/patientService.ts:21-24 | after a successful append, a lookup of the id finds the same patient, whose last entry is the new one |
| PatientService.PatientStore.constructor | Part9/5_Final_Patientor/backend/src/services/patientService.ts:4-15 | the store starts as the given patient list |
| PatientService.PatientStore.GetPublicPatients | Part9/5_Final_Patientor/backend/src/services/patientService.ts:17-19 | one record per stored patient, in order, each the patient without `ssn`; reads the store only |
| PatientService.PatientStore.FindById | Part9/5_Final_Patientor/backend/src/services/patientService.ts:21-24 | the first stored patient with the id, `None` exactly when there is none |
| PatientService.PatientStore.AddPatient | Part9/5_Final_Patientor/backend/src/services/patientService.ts:26-34 | the store grows by the returned patient at the end; it has the body's fields (a missing `entries` stays missing) and the body's id if it has one, else the generated id |
| PatientService.PatientStore.AddEntry | Part9/5_Final_Patientor/backend/src/services/patientService.ts:36-50 | unknown id: `undefined`, store unchanged; first such patient without `entries`: the push's `TypeError`, store unchanged; otherwise the entry with the generated id is appended to that patient only, and the updated patient is returned |
| PatientRoutes.EntryErrorResponse | Part9/5_Final_Patientor/backend/src/routes/patients.ts:45-53 | every error is 400: zod issues, an `Error`'s message, or 'Unknown error' |
| PatientRoutes.PatientErrorResponse | Part9/5_Final_Patientor/backend/src/routes/patients.ts:26-32 | every error is 400: zod issues or 'Unknown error' |
| PatientRoutes.GetPatients | Part9/5_Final_Patientor/backend/src/routes/patients.ts:8-10 | 200 with the public list of every patient in order |
| PatientRoutes.GetPatient | Part9/5_Final_Patientor/backend/src/routes/patients.ts:12-20 | 404 exactly when no patient has the id; otherwise 200 with the first stored patient with that id, as `findById` returns it |
| PatientRoutes.PostPatient | Part9/5_Final_Patientor/backend/src/routes/patients.ts:22-25 | the body goes to `addPatient` unvalidated; the store grows by one patient at the end, earlier patients unchanged; the new patient carries the body's fields and the body's `id` if it has one, else the generated id; 200 with that patient |
| PatientRoutes.PostEntry | Part9/5_Final_Patientor/backend/src/routes/patients.ts:35-54 | invalid body: 400 with the issues and the store untouched, whatever the id; valid body and unknown id: 404, store unchanged; a patient stored without `entries`: 400 with the `TypeError`'s message, store unchanged; otherwise the entry is appended and the updated patient returned |
| ApiResponse.IsValidApiResponse | Part9/1_Typescript_Introduction/typescript-basics/src/runtimeError.ts:25-34 | the guard itself; what it accepts is stated by GuardCharacterized |
| ApiResponse.GuardCharacterized | Part9/1_Typescript_Introduction/typescript-basics/src/runtimeError.ts:25-34 | the guard holds exactly when `name` is present as a string and `age` as a number |
| ApiResponse.OtherKeysIgnored | Part9/1_Typescript_Introduction/typescript-basics/src/runtimeError.ts:31-32 | properties other than `name` and `age` do not affect the verdict |
| ApiResponse.Examples | Part9/1_Typescript_Introduction/typescript-basics/src/runtimeError.ts:15-18 | `{name: null, age: "30"}` is rejected and `{name: "John", age: 30}` accepted |
| NotesServer.GenerateId | Part3/1_Backend_Nodejs_Express/backend/using_express/express_web_server.js:48-54 | 1 for an empty store; otherwise one above a stored id and above every stored id |
| NotesServer.MaxId | Part3/1_Backend_Nodejs_Express/backend/using_express/express_web_server.js:51 | at least every id and equal to one of them |
| NotesServer.RemoveId | Part3/1_Backend_Nodejs_Express/backend/using_express/express_web_server.js:42 | the store after a delete; what it keeps is stated by RemoveIdEffect |
| NotesServer.RemoveIdEffect | Part3/1_Backend_Nodejs_Express/backend/using_express/express_web_server.js:42 | no kept note has the id, every note with another id is kept, nothing new appears; a non-numeric id removes nothing |
| NotesServer.RemoveIdIdempotent | Part3/1_Backend_Nodejs_Express/backend/using_express/express_web_server.js:40-45 | deleting twice equals deleting once |
| NotesServer.FilterKeepsDistinct | Part3/1_Backend_Nodejs_Express/backend/using_express/express_web_server.js:42 | a filtered store keeps ids pairwise distinct |
| NotesServer.AppendGeneratedKeepsDistinct | Part3/1_Backend_Nodejs_Express/backend/using_express/express_web_server.js:66-73 | appending a note with the generated id keeps ids pairwise distinct |
| NotesServer.IdReusedAfterDeletingMax | Part3/1_Backend_Nodejs_Express/backend/using_express/express_web_server.js:11-15 | ids are not reserved: after deleting id 3 from the initial notes the next id is 3 again |
| NotesServer.NotesServer.constructor | Part3/1_Backend_Nodejs_Express/backend/using_express/express_web_server.js:11-15 | the store starts as the three initial notes, with distinct ids |
| NotesServer.NotesServer.GetAll | Part3/1_Backend_Nodejs_Express/backend/using_express/express_web_server.js:22-24 | the whole store as it is, in order |
| NotesServer.NotesServer.GetById | Part3/1_Backend_Nodejs_Express/backend/using_express/express_web_server.js:26-38 | the first note whose id is `Number(id)`, otherwise 404 'Note not found' |
| NotesServer.NotesServer.Delete | Part3/1_Backend_Nodejs_Express/backend/using_express/express_web_server.js:40-45 | always 204; removes every note with the id and keeps ids distinct |
| NotesServer.NotesServer.Post | Part3/1_Backend_Nodejs_Express/backend/using_express/express_web_server.js:57-75 | falsy `content`: 400 'content missing', store unchanged; otherwise one note appended with the generated id and `important` defaulting to false, earlier notes unchanged, ids distinct |
| BlogController.TokenExtractor | Part13/2_Join_tables_and_queries/blog-app/controllers/blogs.js:9-21 | authenticated exactly for a header with a `bearer ` prefix in any case whose token from character 7 verifies; 'token missing' exactly for an absent or non-bearer header; otherwise 'token invalid' |
| BlogController.BearerInAnyCase | Part13/2_Join_tables_and_queries/blog-app/controllers/blogs.js:11-13 | any spelling of `bearer ` followed by a token authenticates exactly when that token verifies |
| BlogController.SortByLikes | Part13/2_Join_tables_and_queries/blog-app/controllers/blogs.js:47 | the result is ordered by likes, most first, and is a permutation of its input |
| BlogController.Found | Part13/2_Join_tables_and_queries/blog-app/controllers/blogs.js:30-51 | the filtered blogs sorted by likes; its properties are stated by FoundCharacterized |
| BlogController.Listed | Part13/2_Join_tables_and_queries/blog-app/controllers/blogs.js:40-45 | a found row without `userId` and with its owner's name, none when the owner is unknown |
| BlogController.FoundCharacterized | Part13/2_Join_tables_and_queries/blog-app/controllers/blogs.js:30-51 | GET returns the blogs whose title or author contains the search ignoring case, each once, most liked first |
| BlogController.EmptySearchKeepsAll | Part13/2_Join_tables_and_queries/blog-app/controllers/blogs.js:33 | an empty or absent search keeps every blog |
| BlogController.DestroyKeepsDistinct | Part13/2_Join_tables_and_queries/blog-app/controllers/blogs.js:84 | destroying one row keeps primary keys distinct |
| BlogController.BlogDb.constructor | Part13/2_Join_tables_and_queries/blog-app/controllers/blogs.js:5 | the tables start as the given rows and users, with distinct primary keys |
| BlogController.BlogDb.Get | Part13/2_Join_tables_and_queries/blog-app/controllers/blogs.js:40-50 | the found rows in order, each without `userId` and with its owner's name |
| BlogController.BlogDb.Post | Part13/2_Join_tables_and_queries/blog-app/controllers/blogs.js:54-65 | 401 from the token check, 400 for an unknown user, otherwise the blog is appended with `userId` set from the token, whatever the body said |
| BlogController.BlogDb.PutLikes | Part13/2_Join_tables_and_queries/blog-app/controllers/blogs.js:68-76 | no token needed; 404 for an unknown id, otherwise only `likes` of that blog changes |
| BlogController.BlogDb.Delete | Part13/2_Join_tables_and_queries/blog-app/controllers/blogs.js:79-89 | token first (401), then 404 for an unknown blog, 403 for a non-owner (blog kept), otherwise the blog is removed and 204 |
| Phonebook.Shown | Part2/excercise/phonebook/src/App.jsx:28-31 | the filtered book; who is shown is stated by ShownCharacterized |
| Phonebook.ShownCharacterized | Part2/excercise/phonebook/src/App.jsx:28-31 | a person is shown exactly when its lowercased name contains the lowercased query |
| Phonebook.EmptySearchShowsAll | Part2/excercise/phonebook/src/App.jsx:28-31 | an empty query shows every person, in order |
| Phonebook.OwnNameFinds | Part2/excercise/phonebook/src/App.jsx:28-31 | a person's own name in any letter case finds it |
| Phonebook.Phonebook.constructor | Part2/excercise/phonebook/src/App.jsx:4-13 | the four initial persons, with distinct names, all shown |
| Phonebook.Phonebook.HandleNameChange | Part2/excercise/phonebook/src/App.jsx:15-18 | `newName` becomes the typed text, nothing else changes |
| Phonebook.Phonebook.HandleNumberChange | Part2/excercise/phonebook/src/App.jsx:20-23 | `newNumber` becomes the typed text, nothing else changes |
| Phonebook.Phonebook.HandleSearchNameChange | Part2/excercise/phonebook/src/App.jsx:25-32 | the shown list is the full book filtered by the new text; the book is unchanged |
| Phonebook.Phonebook.AddPerson | Part2/excercise/phonebook/src/App.jsx:34-51 | empty name or number: nothing changes; a present name: the alert and nothing else; otherwise one person appended at the end, `newName` cleared, `newNumber` kept; names stay distinct |
| Anecdotes.FindAnecdote | Part7/1_React_router/anecdotes-app/src/App.jsx:44-45 | the index of the first anecdote with the id, none exactly when there is none |
| Anecdotes.Voted | Part7/1_React_router/anecdotes-app/src/App.jsx:47-56 | the list `vote` stores; its effect is stated by VoteEffect |
| Anecdotes.VoteEffect | Part7/1_React_router/anecdotes-app/src/App.jsx:47-56 | length and order kept; the first anecdote with the id gets exactly one more vote and is otherwise unchanged; anecdotes with other ids unchanged; a later anecdote with the same id is overwritten by the voted copy, so with distinct ids all others are unchanged |
| Anecdotes.VoteOverwritesRepeatedId | Part7/1_React_router/anecdotes-app/src/App.jsx:34-56 | after a new anecdote receives the random id 1, voting for 1 turns it into a copy of the first anecdote |
| Anecdotes.VoteKeepsIds | Part7/1_React_router/anecdotes-app/src/App.jsx:55 | voting never moves or changes an id |
| Anecdotes.RandomIdMayCollide | Part7/1_React_router/anecdotes-app/src/App.jsx:35 | the random id is not checked against the list and can repeat an existing one |
| Anecdotes.AnecdotesApp.constructor | Part7/1_React_router/anecdotes-app/src/App.jsx:10-27 | the two initial anecdotes and an empty notification |
| Anecdotes.AnecdotesApp.AnecdoteById | Part7/1_React_router/anecdotes-app/src/App.jsx:44-45 | the first anecdote with the id, `None` exactly when there is none |
| Anecdotes.AnecdotesApp.RouteAnecdote | Part7/1_React_router/anecdotes-app/src/App.jsx:29-32 | nothing when the route does not match; otherwise the anecdote with `Number(id)` |
| Anecdotes.AnecdotesApp.Vote | Part7/1_React_router/anecdotes-app/src/App.jsx:47-56 | for an id in the list, the list becomes the voted list |
| Anecdotes.AnecdotesApp.AddNew | Part7/1_React_router/anecdotes-app/src/App.jsx:34-42 | the submitted anecdote gets the random id and is appended at the end; the notification names it |
| NotesClient.NotesToShow | Part2/2_Forms/notes/src/App.jsx:12-14 | all notes when `showAll`, otherwise exactly the important ones (same expression at Part2/3 lines 11-13, Part2/4 lines 11-13, Part3/2 line 80) |
| NotesClient.ImportantOnlyIdempotent | Part3/2_Deploy_the_app/notes/frontend/src/App.jsx:80 | filtering important notes twice is filtering once; it and the unimportant notes partition the list |
| NotesClient.Toggled | Part3/2_Deploy_the_app/notes/frontend/src/App.jsx:63 | the copy differs only in `important`, which is negated |
| NotesClient.ToggledTwice | Part2/4_Altering_data_in_server/notes/src/App.jsx:72 | toggling twice gives the note back |
| NotesClient.ReplaceById | Part3/2_Deploy_the_app/notes/frontend/src/App.jsx:68 | same length; notes with the id become the returned note, the others are unchanged |
| NotesClient.RemoveById | Part3/2_Deploy_the_app/notes/frontend/src/App.jsx:77 | no kept note has the id, and every note with another id is kept |
| NotesClient.RemoveAbsentId | Part3/2_Deploy_the_app/notes/frontend/src/App.jsx:77 | removing an absent id leaves the list as it is |
| NotesClient.LocalAddKeepsIds | Part2/2_Forms/notes/src/App.jsx:26-32 | when ids are `String(position + 1)`, a local add keeps them so and keeps them distinct |
| NotesClient.LocalIdReadsBack | Part2/2_Forms/notes/src/App.jsx:29 | the local id is the decimal string of the old length plus one |
| NotesClient.FormsApp.constructor | Part2/2_Forms/notes/src/App.jsx:5-11 | the notes passed in, the placeholder text, and all notes shown |
| NotesClient.FormsApp.HandleNoteChange | Part2/2_Forms/notes/src/App.jsx:16-19 | `newNote` becomes the typed text, nothing else changes |
| NotesClient.FormsApp.ToggleShowAll | Part2/2_Forms/notes/src/App.jsx:40 | `showAll` is negated, nothing else changes |
| NotesClient.FormsApp.AddNote | Part2/2_Forms/notes/src/App.jsx:22-34 | one note appended with the text and local id, earlier notes unchanged, `newNote` cleared |
| NotesClient.FetchingApp.constructor | Part2/3_Getting_data_from_server/notes/src/App.jsx:6-10 | no notes, the placeholder text, and all notes shown |
| NotesClient.FetchingApp.Load | Part2/3_Getting_data_from_server/notes/src/App.jsx:27-36 | the fetched list replaces `notes` |
| NotesClient.FetchingApp.HandleNoteChange | Part2/3_Getting_data_from_server/notes/src/App.jsx:40-43 | `newNote` becomes the typed text, nothing else changes |
| NotesClient.FetchingApp.ToggleShowAll | Part2/3_Getting_data_from_server/notes/src/App.jsx:64 | `showAll` is negated, nothing else changes |
| NotesClient.FetchingApp.AddNote | Part2/3_Getting_data_from_server/notes/src/App.jsx:46-58 | one note appended with the text and local id, earlier notes unchanged, `newNote` cleared |
| NotesClient.AlteringApp.constructor | Part2/4_Altering_data_in_server/notes/src/App.jsx:6-10 | no notes, the placeholder text, and all notes shown |
| NotesClient.AlteringApp.Load | Part2/4_Altering_data_in_server/notes/src/App.jsx:27-36 | the fetched list replaces `notes`, nothing else changes |
| NotesClient.AlteringApp.HandleNoteChange | Part2/4_Altering_data_in_server/notes/src/App.jsx:40-43 | `newNote` becomes the typed text, nothing else changes |
| NotesClient.AlteringApp.ToggleShowAll | Part2/4_Altering_data_in_server/notes/src/App.jsx:83 | `showAll` is negated, nothing else changes |
| NotesClient.AlteringApp.AddNote | Part2/4_Altering_data_in_server/notes/src/App.jsx:46-65 | posts the text; the server's note is appended and `newNote` cleared when it answers |
| NotesClient.AlteringApp.ToggleImportanceOf | Part2/4_Altering_data_in_server/notes/src/App.jsx:66-77 | puts the toggled note; the server's note replaces every note with the id |
| NotesClient.DeployedApp.constructor | Part3/2_Deploy_the_app/notes/frontend/src/App.jsx:12-17 | no notes, the placeholder text, all notes shown, and no error message |
| NotesClient.DeployedApp.Load | Part3/2_Deploy_the_app/notes/frontend/src/App.jsx:20-28 | the fetched list replaces `notes`, nothing else changes |
| NotesClient.DeployedApp.HandleNoteChange | Part3/2_Deploy_the_app/notes/frontend/src/App.jsx:32-35 | `newNote` becomes the typed text, nothing else changes |
| NotesClient.DeployedApp.ToggleShowAll | Part3/2_Deploy_the_app/notes/frontend/src/App.jsx:88 | `showAll` is negated, nothing else changes |
| NotesClient.DeployedApp.AddNote | Part3/2_Deploy_the_app/notes/frontend/src/App.jsx:38-57 | posts the text; the created note is appended and `newNote` cleared on success |
| NotesClient.DeployedApp.ToggleImportanceOf | Part3/2_Deploy_the_app/notes/frontend/src/App.jsx:59-79 | success: notes with the id replaced by the returned note; failure: they are removed and the error names the note's content |
| ComplexState.JoinWithSpaces | Part1/4_Complex_state/complexstatedemo/src/App.jsx:11 | the clicks at even positions, single spaces between them |
| ComplexState.History | Part1/4_Complex_state/complexstatedemo/src/App.jsx:4-13 | the rendered history text; its properties are stated by HistoryShowsUsageIffEmpty |
| ComplexState.HistoryShowsUsageIffEmpty | Part1/4_Complex_state/complexstatedemo/src/App.jsx:4-13 | the usage message exactly when no click was made; otherwise the joined history ending with the last click |
| ComplexState.HistoryExample | Part1/4_Complex_state/complexstatedemo/src/App.jsx:4-13 | `L`, `R`, `R` render as "button press history: L R R" |
| ComplexState.ComplexStateApp.constructor | Part1/4_Complex_state/complexstatedemo/src/App.jsx:18-26 | no clicks, all counters 0, value 10 |
| ComplexState.ComplexStateApp.HandleLeftClick | Part1/4_Complex_state/complexstatedemo/src/App.jsx:29-46 | left counters up by one, right counters and value unchanged, 'L' appended; `total == left + right`, `clicks` mirrors the counters, the history counts each side |
| ComplexState.ComplexStateApp.HandleRightClick | Part1/4_Complex_state/complexstatedemo/src/App.jsx:48-63 | right counters up by one, left counters and value unchanged, 'R' appended; the same invariant |
| ComplexState.ComplexStateApp.SetToValue | Part1/4_Complex_state/complexstatedemo/src/App.jsx:66-75 | `value` becomes the given value; counters, totals and history unchanged |
| ComplexState.ComplexStateApp.Thousand | Part1/4_Complex_state/complexstatedemo/src/App.jsx:92 | value becomes 1000, clicks untouched |
| ComplexState.ComplexStateApp.Reset | Part1/4_Complex_state/complexstatedemo/src/App.jsx:93 | value becomes 0, clicks untouched |
| ComplexState.ComplexStateApp.Increment | Part1/4_Complex_state/complexstatedemo/src/App.jsx:94 | value becomes the rendered value plus one |
| Unicafe.Feedback.constructor | Part1/excercise/unicaf/src/App.jsx:7-9 | all three counters start at 0 |
| Unicafe.Feedback.HandleGoodClick | Part1/excercise/unicaf/src/App.jsx:11-13 | `good` up by one, the others unchanged |
| Unicafe.Feedback.HandleNeutralClick | Part1/excercise/unicaf/src/App.jsx:14-16 | `neutral` up by one, the others unchanged |
| Unicafe.Feedback.HandleBadClick | Part1/excercise/unicaf/src/App.jsx:17-19 | `bad` up by one, the others unchanged |
| Unicafe.Replay | Part1/excercise/unicaf/src/App.jsx:11-19 | after any clicks from the start, each counter is the number of clicks on its button |
| Unicafe.CountsAddUp | Part1/excercise/unicaf/src/App.jsx:11-19 | the three counters add up to the number of clicks |
| Unicafe.CountMonotone | Part1/excercise/unicaf/src/App.jsx:11-19 | more clicks never lower a counter |
| CounterDemo.Counter.constructor | Part1/3_Component_state_and_event_handlers/componentdemo/src/App.jsx:69 | the counter starts at 0 |
| CounterDemo.Counter.IncreaseByOne | Part1/3_Component_state_and_event_handlers/componentdemo/src/App.jsx:78-81 | adds exactly one |
| CounterDemo.Counter.SetToZero | Part1/3_Component_state_and_event_handlers/componentdemo/src/App.jsx:83-86 | zero whatever the prior value |
| CounterDemo.Counter.DecreaseByOne | Part1/3_Component_state_and_event_handlers/componentdemo/src/App.jsx:88-91 | subtracts exactly one, with no lower bound |
| CounterDemo.Replay | Part1/3_Component_state_and_event_handlers/componentdemo/src/App.jsx:101-103 | clicking the buttons in turn leaves the counter at the specified value |
| CounterDemo.NetClicks | Part1/3_Component_state_and_event_handlers/componentdemo/src/App.jsx:78-91 | without "zero", the counter is the number of "plus" clicks minus the number of "minus" clicks |
| CounterDemo.ZeroForgets | Part1/3_Component_state_and_event_handlers/componentdemo/src/App.jsx:83-86 | "zero" forgets everything before it, and clicking it twice is clicking it once |
| CounterDemo.GoesNegative | Part1/3_Component_state_and_event_handlers/componentdemo/src/App.jsx:88-91 | one "minus" from the start gives -1 |
| HigherOrder.DogsByLoop | Part2/1_Rendering_collections_modules/test_functional/1_Higher_order_functions.js:12-19 | the loop-built dogs equal `animals.filter(isDog)` |
| HigherOrder.NamesByLoop | Part2/1_Rendering_collections_modules/test_functional/1_Higher_order_functions.js:41-44 | the loop-built names equal `animals.map(a => a.name)`, index by index |
| HigherOrder.TotalByLoop | Part2/1_Rendering_collections_modules/test_functional/1_Higher_order_functions.js:62-65 | the loop total equals `orders.reduce(add, 0)` |
| HigherOrder.DogsAndOthersPartition | Part2/1_Rendering_collections_modules/test_functional/1_Higher_order_functions.js:24-37 | `filter(isDog)` and `filter(isNotDog)` split the animals, their lengths summing to the whole |
| HigherOrder.DogsOfPrefix | Part2/1_Rendering_collections_modules/test_functional/1_Higher_order_functions.js:15-19 | the dogs of a longer list extend the dogs of its prefix, in order |
| HigherOrder.TotalAppend | Part2/1_Rendering_collections_modules/test_functional/1_Higher_order_functions.js:69-72 | one more order adds its amount to the total |
| HigherOrder.FoldPointwise | Part2/1_Rendering_collections_modules/test_functional/1_Higher_order_functions.js:69-75 | reducers that agree on every step, like `add` and the arrow, give the same total |
| HigherOrder.DogsExample | Part2/1_Rendering_collections_modules/test_functional/1_Higher_order_functions.js:1-37 | the sample yields the dogs Caro and Hamilton and four other animals |
| HigherOrder.TotalExample | Part2/1_Rendering_collections_modules/test_functional/1_Higher_order_functions.js:56-75 | the sample orders total 1075 |
| CourseTotal.TotalExercises | Part9/4_React_with_types/course-app/src/components/Total.tsx:8 | the reduce over the parts; its properties are stated by the lemmas below |
| CourseTotal.TotalOfFew | Part9/4_React_with_types/course-app/src/components/Total.tsx:8 | no parts total 0; one part totals its own count |
| CourseTotal.TotalAppend | Part9/4_React_with_types/course-app/src/components/Total.tsx:8 | appending a part adds its count |
| CourseTotal.TotalConcat | Part9/4_React_with_types/course-app/src/components/Total.tsx:8 | the total of two lists is the sum of their totals |
| CourseTotal.TotalBoundsEachPart | Part9/4_React_with_types/course-app/src/components/Total.tsx:8 | with non-negative counts, the total is non-negative and at least each part's count |
| CountriesView.Countries | Part2/excercise/countries/src/components/countries.jsx:18-33 | more than 10: the message; exactly 1: its detail; 0 or 2 to 10: the names in input order |
| CountriesView.Detailed | Part2/excercise/countries/src/components/countries.jsx:1-16 | name, capital, area, flag, and the values of `languages` in order |
| CountriesView.ListViewDependsOnNamesOnly | Part2/excercise/countries/src/components/countries.jsx:26-32 | a list view depends only on the names, in order |
| CountriesApp.Matching | Part2/excercise/countries/src/App.jsx:23-26 | the filtered countries; which ones is stated by MatchingCharacterized |
| CountriesApp.MatchingCharacterized | Part2/excercise/countries/src/App.jsx:23-26 | a country matches exactly when its lowercased name contains the lowercased query |
| CountriesApp.EmptySearchMatchesAll | Part2/excercise/countries/src/App.jsx:23-26 | an empty query keeps every country |
| CountriesApp.LongerSearchNarrows | Part2/excercise/countries/src/App.jsx:23-26 | a query that extends another shows a subset of its countries |
| CountriesApp.App.constructor | Part2/excercise/countries/src/App.jsx:6-8 | empty search text, no countries, nothing shown |
| CountriesApp.App.Load | Part2/excercise/countries/src/App.jsx:10-18 | the fetched list becomes both `countries` and `countriesToShow` |
| CountriesApp.App.HandleSearchCountryChange | Part2/excercise/countries/src/App.jsx:20-27 | the shown list is the full list filtered by the new text; `countries` unchanged |
| CountriesApp.App.ShowCountryHandler | Part2/excercise/countries/src/App.jsx:29-32 | the shown list becomes exactly the chosen country |
| CountriesApp.App.Shown | Part2/excercise/countries/src/App.jsx:43 | a single shown country is rendered as its detail |
| Weather.FixFakeData | Part2/excercise/countries/src/services/weather.js:58-63 | a copy with `name` set to the city and every other field equal |
| Weather.IndexZero | Part2/excercise/countries/src/services/weather.js:66 | `v[0]`: an array's first item, a string's first character, an object's "0" property, otherwise undefined |
| Weather.FirstWeather | Part2/excercise/countries/src/services/weather.js:66 | `weather.weather[0]`, or the `TypeError` exactly when `weather.weather` or its first item is null or undefined |
| Weather.TemplateString | Part2/excercise/countries/src/services/weather.js:68 | a template literal writes a string as itself, and other values by JavaScript's conversion to a string |
| Weather.TemplateStringExamples | Part2/excercise/countries/src/services/weather.js:68 | an array prints as its comma-joined items with `null` items empty; `null` and objects print as "null" and "[object Object]" |
| Weather.IconText | Part2/excercise/countries/src/services/weather.js:66-68 | the icon text is "undefined" for a missing `icon`, otherwise its template-literal text |
| Weather.AddIconUrl | Part2/excercise/countries/src/services/weather.js:65-70 | for every input: the `TypeError` when `weather.weather` or its first item is null or undefined; otherwise a copy with `icon` set to the URL built from `${icon}` as a template literal writes it ("undefined" when missing), every other field equal |
| Weather.AddIconUrlWithIcon | Part2/excercise/countries/src/services/weather.js:65-70 | a string icon on the first item gives the URL with that icon |
| Weather.AddIconUrlEdgeCases | Part2/excercise/countries/src/services/weather.js:65-70 | an item without `icon` gives the URL of "undefined"; an empty list or a missing `weather` throws the matching `TypeError` |
| Weather.FixFakeDataLastWins | Part2/excercise/countries/src/services/weather.js:58-63 | renaming twice keeps only the last city |
| Weather.AddIconUrlIdempotent | Part2/excercise/countries/src/services/weather.js:65-70 | whenever adding the URL succeeds, adding it again gives the same object |
| Weather.GetWeather | Part2/excercise/countries/src/services/weather.js:41-56 | the sample renamed and given its icon URL; its properties are stated by GetWeatherDeterministic |
| Weather.GetWeatherDeterministic | Part2/excercise/countries/src/services/weather.js:41-56 | the result is the sample with the city's name and the sample's icon URL; two cities' results differ only in `name` |

## Left out

- Rendering, routing, styling and navigation in every component are left out, as are timers that clear notifications and `console.log`. They change no modelled state.
- Network calls are replaced by parameters: the server's reply (or `None` for a rejected promise), fetched lists, `uuid()`, `Math.random()` and `jwt.verify`. Freshness of generated ids is not assumed anywhere it is not needed.
- The `HealthCheckRating` and `Gender` enums are defined in `types.ts`, which is not part of this model. Ratings are a `set<int>` parameter, and gender is a string.
- zod's issue messages and extra issue fields are left out. Only the issue code and path are kept.
- JSON numbers are integers. The weather sample's fractional values are truncated, and no modelled operation reads them.
- `Number(id)` is modelled only for plain decimal digit strings. Any other string stands for a value that equals no stored id.
- `toLowerCase` folds ASCII letters only.
- Sequelize's `iLike` is modelled as a case-insensitive substring test. Its `%` and `_` wildcards inside the search text are left out.
- Sequelize's `order` gives no order among equal likes. `SortByLikes` picks one.
- The database side of the blog app is left out: validation, `save`, `destroy`, the created row's generated fields and the 400 body on a failed create.
- BlogController.BlogDb.PutLikes: takes `likes` as an integer. In the source it is `req.body.likes` as sent, possibly missing.
- PatientRoutes.PostPatient, PatientService.PatientStore.AddPatient: the body is a record with `name`, `dateOfBirth`, `ssn`, `gender` and `occupation` always present as strings. The source stores the body as sent, so keys it does not declare are stored and returned by both GET routes, and those five fields may be missing or of another type. Only a missing `entries` is modelled, because it changes what PatientRoutes.PostEntry answers.
- PatientService.PatientStore.constructor: the initial patient list is a parameter, because the source elides all but its first record.
- Weather.TemplateString: numbers are integers, so JavaScript's formatting of fractions and exponents is not modelled.
- Anecdotes.AnecdotesApp.Vote: requires the id to be present. The source throws otherwise.
- Anecdotes.AnecdotesApp.AddNew: the source stamps the id onto the submitted object in place. The model builds a new value, so aliasing of that object is not captured.
- NotesClient.AlteringApp.ToggleImportanceOf and NotesClient.DeployedApp.ToggleImportanceOf: require the id to be present, because `note.important` throws otherwise.
- NotesClient.AlteringApp.AddNote, NotesClient.AlteringApp.ToggleImportanceOf, NotesClient.DeployedApp.AddNote and NotesClient.DeployedApp.ToggleImportanceOf: each request and its `.then`/`.catch` form one atomic step. In the source the callbacks use the `notes` captured at click time. An update that lands between a request and its reply is overwritten when the reply arrives, so two quick adds or toggles can lose one. The `.catch` message uses the note as it was at click time. Neither the interleaving nor this stale-closure overwrite is captured.
- Unicafe.Replay and CounterDemo.Replay: these replay a click sequence, which the source does not do. They only connect the component's handlers to a function of the click history.
