# Portfolio site: storage, API and interactive components

This project models the core of a bilingual (Hebrew/English) portfolio site and proves properties of that model in Dafny.

- **Server.** It has five tables: users, contact messages, projects, blog posts and site settings. Each table has a request schema that validates insert bodies. `DatabaseStorage` reads and writes the tables. The Express routes sit on top of the storage and answer with `{ success, ... }` JSON bodies.
- **Client.** Four components are modelled:
  - an interactive terminal with a Hebrew command table and command history;
  - a typing animation;
  - the hero section's social links, which are configured through site settings;
  - the contact form with its client-side validation.

Modules, one file each:

- `Wrappers`: `Option` and `Result`.
- `Json`: request bodies and query values.
- `Queries`: the three query shapes the storage uses.
  - Lookup by column: `FindBy`.
  - Filter: `Where`.
  - `ORDER BY created_at DESC`: `NewestFirst`.
  - Uniqueness of a column: `Unique`.
- `Schema`: rows, insert values, column defaults, and the insert schemas' parse.
  - The parse accepts an object exactly when every picked field has its type.
  - The issues it reports are exactly the failing fields.
  - It reads nothing but the picked keys.
  - It returns what a client encoded.
- `Storage`: the class `DatabaseStorage` over five `seq` tables.
  - Creates append a row.
  - `SetSetting` is an update-or-insert specified by the function `Upsert`.
  - The unique constraints are kept as the invariant `Valid()`.
- `Routes`: each route is given twice.
  - A pure function of the table it touches.
  - A method that runs the route against a `DatabaseStorage` and is proved equal to that function.
  - Lemmas tie POSTs to later GETs.
- `Terminal`: command normalisation (JavaScript `trim` plus lower case), the command table, and `processCommand`.
  - `processCommand` is a method with a loop, proved against the function `Processed`.
  - The class `InteractiveTerminal` has Enter, ArrowUp and ArrowDown over the history cursor.
- `Typing`: the typing animation as a step function.
  - Steps keep the prefix invariant.
  - A lemma gives the length and duration of a full word cycle.
  - The class `TypingEffect` ticks one timer firing at a time.
- `Hero`: social-link URL resolution and the external-link test.
- `ContactForm`: the client-side schema, and the pending and submitted states around the POST.

Nondeterminism and I/O enter as parameters:
- A generated id is the `id` argument of each create.
- `defaultNow()` is the `now` argument.
- The e-mail format check is a function argument `isEmail`.
- A request body is a `Json` value.

Behaviour worth noting:
- The insert schemas are generated from the tables. A text column only has to be a string, so an empty `title`, `slug`, `key` or `value` is accepted.
- The contact endpoint has no length or e-mail rules. These rules exist only in the client form (`ContactForm.ServerAcceptsWhatFormRejects`).
- Enter resets the history cursor only when the input is not blank.

## Model

| member | source | states |
|---|---|---|
| Queries.FindBy | server/storage.ts:31-39 | `select ... where col = k` then `result[0]`: nothing exactly when no row matches, otherwise the first matching row. The model looks up only by `id`, `username`, `slug` and `key`, which the schema declares primary or unique, so at most one row matches |
| Queries.FindByUnique | shared/schema.ts:8 | on a unique column, the lookup of any row's value gives that row |
| Queries.FindByAppend | server/storage.ts:41-49 | after an insert, a lookup gives the old answer if there was one, else the new row when it matches |
| Queries.Where | server/storage.ts:70-74 | the filter keeps exactly the rows satisfying the condition, with their multiplicities |
| Queries.NewestFirst | server/storage.ts:51-57 | `ORDER BY created_at DESC`: the result is ordered newest first and is a permutation of the table |
| Queries.InsertByTime | server/storage.ts:52 | inserting one row into a newest-first list keeps it ordered and adds exactly that row |
| Queries.UniqueAppend | shared/schema.ts:8 | inserting a row whose value is not taken keeps a unique column unique |
| Schema.ColumnValue | shared/schema.ts:44-47 | an omitted field takes the column default, an explicit null stays NULL, a value is stored |
| Schema.NewUser | shared/schema.ts:6-10 | a new user row holds the generated id and the given username and password |
| Schema.NewContactMessage | shared/schema.ts:20-26 | a new message row holds the generated id, the insert time and the given fields |
| Schema.NewProject | shared/schema.ts:37-49 | a new project has the id, the time and the given text fields; each nullable column holds `ColumnValue` of its field: NULL when omitted, except `featured`, which defaults to "false" |
| Schema.NewBlogPost | shared/schema.ts:66-78 | a new post has the id, the time and the given text fields; `coverImageUrl` is NULL when omitted, an omitted `published` is "false", and the post is published iff `published` was given as "true" |
| Schema.NewSiteSetting | shared/schema.ts:95-99 | a new setting row holds the id, key and value |
| Schema.ItemIssues | shared/schema.ts:43 | an array field has no issue exactly when every element is a string; each issue points at one element that is not a string |
| Schema.FieldIssues | shared/schema.ts:12-15 | a field has no issue exactly when it conforms to its column's type; each issue names the field |
| Schema.ShapeIssues | shared/schema.ts:51-61 | no issues iff every picked field conforms |
| Schema.ShapeIssuesNamesFailures | shared/schema.ts:51-61 | each failing field is reported, and each issue is about a failing field |
| Schema.BodyIssues | shared/schema.ts:28-32 | a body that is not an object gets a single root issue; otherwise the issues of its fields |
| Schema.ParseUser | shared/schema.ts:12-15 | `insertUserSchema.parse`: accepted iff an object with string `username` and `password`; otherwise the issues |
| Schema.ParseContactMessage | shared/schema.ts:28-32 | accepted iff an object whose `name`, `email`, `message` are strings; otherwise the issues |
| Schema.ParseProject | shared/schema.ts:51-61 | accepted iff the nine picked project fields have their types; otherwise the issues |
| Schema.ParseBlogPost | shared/schema.ts:80-90 | accepted iff the nine picked post fields have their types; otherwise the issues |
| Schema.ParseSiteSetting | shared/schema.ts:101-104 | accepted iff `key` and `value` are strings; otherwise the issues |
| Schema.ShapeIssuesAgree | shared/schema.ts:51-61 | the issues depend only on the picked fields of the body |
| Schema.ContactMessageParseReadsOnlyPickedKeys | shared/schema.ts:28-32 | two bodies that agree on `name`, `email`, `message` parse alike |
| Schema.ProjectParseReadsOnlyPickedKeys | shared/schema.ts:51-61 | two bodies that agree on the picked project fields parse alike |
| Schema.BlogPostParseReadsOnlyPickedKeys | shared/schema.ts:80-90 | two bodies that agree on the picked post fields parse alike |
| Schema.SiteSettingParseReadsOnlyPickedKeys | shared/schema.ts:101-104 | two bodies that agree on `key` and `value` parse alike |
| Schema.UnpickedKey | shared/schema.ts:12-15 | setting a key outside the picked fields leaves a body's parse unchanged |
| Schema.ContactMessageIgnoresIdAndCreatedAt | shared/schema.ts:21-32 | a client cannot supply `id` or `createdAt` for a message |
| Schema.ProjectIgnoresIdAndCreatedAt | shared/schema.ts:38-61 | a client cannot supply `id` or `createdAt` for a project |
| Schema.BlogPostIgnoresIdAndCreatedAt | shared/schema.ts:67-90 | a client cannot supply `id` or `createdAt` for a post |
| Schema.SiteSettingIgnoresId | shared/schema.ts:96-104 | a client cannot supply the `id` of a setting |
| Schema.NullishEntryRoundTrip | shared/schema.ts:44-47 | a nullable field written as omitted, null or a value is read back as the same |
| Schema.ContactMessageRoundTrip | shared/schema.ts:28-32 | the body a client builds from a message parses back to that message |
| Schema.SiteSettingRoundTrip | shared/schema.ts:101-104 | the body built from a setting parses back to it |
| Schema.ProjectBodyRequired | shared/schema.ts:39-43 | the body built from a project insert holds its five required fields with their types and values |
| Schema.ProjectBodyNullable | shared/schema.ts:44-47 | the body built from a project insert reads back each nullable field as omitted, null or the value it had |
| Schema.ProjectRoundTrip | shared/schema.ts:51-61 | the body built from a project insert parses back to it |
| Schema.BlogPostBodyRequired | shared/schema.ts:66-78 | the body built from a post insert holds its seven required fields with their values |
| Schema.BlogPostBodyNullable | shared/schema.ts:66-78 | the body built from a post insert reads back `coverImageUrl` and `published` as omitted, null or the value it had |
| Schema.BlogPostRoundTrip | shared/schema.ts:80-90 | the body built from a post insert parses back to it |
| Storage.Upsert | server/storage.ts:99-110 | `setSetting`: it fails only when the key is absent and the generated id is taken, and then leaves the table unchanged; on success it returns a row holding the key and the new value |
| Storage.SetValueWhereKey | server/storage.ts:102-105 | the update changes the value of exactly the rows with the key and nothing else |
| Storage.UpsertExistingKey | server/storage.ts:100-106 | on an existing key no row is added, ids and keys stay, other keys' rows are unchanged, and the returned row is the updated one |
| Storage.UpsertAbsentKey | server/storage.ts:108-109 | on a new key exactly one row with the key and value is appended, or the insert fails on an id collision with the table unchanged |
| Storage.UpsertReadBack | server/storage.ts:94-110 | after a successful `setSetting`, `getSetting(key)` gives the returned row, which holds the new value |
| Storage.UpsertOtherKeysUnchanged | server/storage.ts:99-110 | `setSetting` leaves `getSetting` of every other key as it was |
| Storage.FindByUpdatedKey | server/storage.ts:102-105 | after the update a lookup finds the same row, updated when it has the written key |
| Storage.UpsertKeepsUnique | shared/schema.ts:96-97 | `setSetting` keeps setting ids and keys unique |
| Storage.UpsertLastWriteWins | server/storage.ts:99-110 | a second write to a key always succeeds and leaves one row holding the last value |
| Storage.BlogPostsQuery | server/storage.ts:69-77 | the published posts (or all), newest first, each kept with its multiplicity |
| Storage.DatabaseStorage.constructor | server/storage.ts:117 | the storage starts with empty tables that satisfy the unique constraints |
| Storage.DatabaseStorage.GetUser | server/storage.ts:31-34 | no user iff the id is absent; otherwise a stored user with that id |
| Storage.DatabaseStorage.GetUserByUsername | server/storage.ts:36-39 | no user iff the username is absent; otherwise a stored user with that username |
| Storage.DatabaseStorage.GetProject | server/storage.ts:59-62 | no project iff the id is absent; otherwise the stored project with it |
| Storage.DatabaseStorage.GetBlogPost | server/storage.ts:79-82 | no post iff the id is absent; otherwise the stored post with it |
| Storage.DatabaseStorage.GetBlogPostBySlug | server/storage.ts:84-87 | no post iff the slug is absent; otherwise the stored post with it |
| Storage.DatabaseStorage.GetSetting | server/storage.ts:94-97 | no setting iff the key is absent; otherwise the stored setting with it |
| Storage.DatabaseStorage.GetContactMessages | server/storage.ts:51-53 | all messages, newest first |
| Storage.DatabaseStorage.GetProjects | server/storage.ts:55-57 | all projects, newest first |
| Storage.DatabaseStorage.GetBlogPosts | server/storage.ts:69-77 | exactly the stored posts that pass the published filter, each with its multiplicity, newest first |
| Storage.DatabaseStorage.GetSettings | server/storage.ts:112-114 | every stored setting |
| Storage.DatabaseStorage.CreateUser | server/storage.ts:41-44 | appends the new user, or fails on a taken id or username with the table unchanged; keeps the constraints |
| Storage.DatabaseStorage.CreateContactMessage | server/storage.ts:46-49 | appends the new message, or fails on a taken id with the table unchanged |
| Storage.DatabaseStorage.CreateProject | server/storage.ts:64-67 | appends the new project, or fails on a taken id with the table unchanged |
| Storage.DatabaseStorage.CreateBlogPost | server/storage.ts:89-92 | appends the new post, or fails on a taken id or slug with the table unchanged |
| Storage.DatabaseStorage.SetSetting | server/storage.ts:99-110 | the read-then-update-or-insert gives the table and result of `Upsert`, keeping the constraints |
| Routes.ContactCreate | routes.ts:13-33 | 400 with the schema's issues iff the body fails validation; 500 iff a valid body meets a taken id; 201 with the row built from the parsed body appended; a non-201 changes nothing |
| Routes.PostContact | routes.ts:13-33 | the handler run against the storage gives the table and response of `ContactCreate` |
| Routes.NewMessageListedFirst | routes.ts:13-46 | with a forward-moving clock, a message just created heads the next listing |
| Routes.ContactList | routes.ts:35-46 | 200 with all messages, newest first |
| Routes.GetContact | routes.ts:35-46 | the handler answers `ContactList` of the table |
| Routes.ProjectList | routes.ts:49-60 | 200 with all projects, newest first |
| Routes.GetProjects | routes.ts:49-60 | the handler answers `ProjectList` of the table |
| Routes.ProjectGet | routes.ts:62-77 | 404 "Project not found" iff no project has the id; otherwise 200 with it |
| Routes.GetProject | routes.ts:62-77 | the handler answers `ProjectGet` |
| Routes.ProjectCreate | routes.ts:79-99 | 400 with issues iff invalid; 500 iff a valid body meets a taken id; 201 with the row built from the parsed body (column defaults included) appended; non-201 changes nothing |
| Routes.PostProject | routes.ts:79-99 | the handler gives the table and response of `ProjectCreate` |
| Routes.CreatedProjectIsFound | routes.ts:62-99 | a project just created is what `GET /api/projects/:id` returns for its id |
| Routes.PublishedOnly | routes.ts:104 | only the query value exactly the string "true" lists drafts |
| Routes.BlogList | routes.ts:102-114 | 200 with the posts, newest first, each with its multiplicity: only published ones unless `all=true` |
| Routes.GetBlog | routes.ts:102-114 | the handler answers `BlogList` |
| Routes.BlogGet | routes.ts:116-131 | 404 "Blog post not found" iff no post has the slug; otherwise 200 with it |
| Routes.GetBlogPost | routes.ts:116-131 | the handler answers `BlogGet` |
| Routes.BlogCreate | routes.ts:133-153 | 400 with issues iff invalid; 500 iff a valid body meets a taken id or slug; 201 with the row built from the parsed body (column defaults included) appended; non-201 changes nothing |
| Routes.PostBlog | routes.ts:133-153 | the handler gives the table and response of `BlogCreate` |
| Routes.CreatedPostIsFoundBySlug | routes.ts:116-153 | a post just created is what `GET /api/blog/:slug` returns for its slug |
| Routes.DraftListedOnlyWithAll | routes.ts:102-114 | a post created without `published` is hidden from the default listing and shown with `all=true` |
| Routes.SettingsMap | routes.ts:159-162 | the settings object has exactly the keys of the settings rows |
| Routes.SettingsMapLastWins | routes.ts:160-162 | each key holds the value of its last row |
| Routes.SettingsMapOfUniqueKeys | routes.ts:156-163 | with unique keys, every row's value is under its key |
| Routes.SettingsMapAsWritten | routes.ts:159-162 | the object as JavaScript builds it: every key but `__proto__` |
| Routes.SettingsMapAsWrittenLosesProto | routes.ts:159-162 | a stored `__proto__` setting is missing from the as-written object |
| Routes.SettingsMapAsWrittenAgrees | routes.ts:159-162 | without a `__proto__` key, the as-written and corrected objects are equal |
| Routes.SettingsGet | routes.ts:156-171 | 200 with the corrected object (see Findings), whose keys are exactly the stored keys |
| Routes.GetSettings | routes.ts:156-171 | the handler's `forEach` loop builds `SettingsGet`'s corrected object |
| Routes.SettingsSet | routes.ts:173-193 | 400 with issues iff invalid; 500 iff a valid body has a new key and a taken id, changing nothing; on 201 the table is `Upsert`'s and the written setting is readable by key |
| Routes.PostSettings | routes.ts:173-193 | the handler gives the table and response of `SettingsSet` |
| Routes.SettingSetThenGet | routes.ts:156-193 | after an accepted POST, the corrected GET object maps the key to the new value and other keys keep their values |
| Terminal.TrimStartSpec | client/src/components/InteractiveTerminal.tsx:116 | the leading cut is a suffix of the input; only white space is dropped, and the result does not start with white space |
| Terminal.TrimEndSpec | client/src/components/InteractiveTerminal.tsx:116 | the trailing cut is a prefix of the input; only white space is dropped, and the result does not end with white space |
| Terminal.TrimSpec | client/src/components/InteractiveTerminal.tsx:116 | `trim()` gives a piece of the input with no white space at either end |
| Terminal.TrimOfTrimmed | client/src/components/InteractiveTerminal.tsx:116 | trimming a trimmed string changes nothing |
| Terminal.LowerCharSpec | client/src/components/InteractiveTerminal.tsx:116 | lower-casing a character neither makes nor removes white space, leaves no capital, and is idempotent |
| Terminal.Normalize | client/src/components/InteractiveTerminal.tsx:116 | the normalised command is no longer than the input, has no white space at either end, and has no capital letter |
| Terminal.NormalizeIdempotent | client/src/components/InteractiveTerminal.tsx:116 | trimming and lower-casing twice equals doing it once |
| Terminal.Processed | client/src/components/InteractiveTerminal.tsx:115-149 | the screen is emptied exactly when the command normalises to `clear`; otherwise the old screen is kept as a proper prefix |
| Terminal.LookupAsWritten | client/src/components/InteractiveTerminal.tsx:133-135 | the object lookup misses only when the name is neither a table entry nor an inherited member |
| Terminal.InheritedMemberIsNotReported | client/src/components/InteractiveTerminal.tsx:133-145 | `constructor` and `__proto__` are found by the as-written lookup though the table lacks them |
| Terminal.Outputs | client/src/components/InteractiveTerminal.tsx:136-139 | one output line per text, in order |
| Terminal.PushOutputs | client/src/components/InteractiveTerminal.tsx:136-139 | the `forEach` loop appends exactly `Outputs` of the texts to the lines built so far |
| Terminal.ClearEmptiesScreen | client/src/components/InteractiveTerminal.tsx:123-126 | `clear` leaves the screen empty, echo included |
| Terminal.CommandKeepsScreen | client/src/components/InteractiveTerminal.tsx:118-131 | any other command keeps the old lines and echoes the raw input; a blank one adds only the echo |
| Terminal.KnownCommandPrintsEntry | client/src/components/InteractiveTerminal.tsx:133-148 | a table command appends the echo, its lines in order and a blank line |
| Terminal.UnknownCommandReported | client/src/components/InteractiveTerminal.tsx:140-148 | an unknown command appends exactly the echo, one `bash:` error line naming it, and a blank line |
| Terminal.SameAnswerUpToEcho | client/src/components/InteractiveTerminal.tsx:116-148 | inputs that normalise alike get the same output apart from the echo |
| Terminal.UpIndex | client/src/components/InteractiveTerminal.tsx:159-167 | ArrowUp goes from -1 to the newest entry, else one older, never below 0 |
| Terminal.DownIndex | client/src/components/InteractiveTerminal.tsx:168-180 | ArrowDown goes one newer, or to -1 past the newest entry |
| Terminal.DownUndoesUp | client/src/components/InteractiveTerminal.tsx:159-180 | ArrowDown undoes ArrowUp except at the oldest entry |
| Terminal.UpTimesFromInput | client/src/components/InteractiveTerminal.tsx:159-167 | k presses of ArrowUp reach the k-th newest entry and then stay at the oldest |
| Terminal.UpTimesFromIndex | client/src/components/InteractiveTerminal.tsx:159-167 | from entry i, k presses of ArrowUp reach entry i - k, never below the oldest |
| Terminal.InteractiveTerminal.constructor | client/src/components/InteractiveTerminal.tsx:98-105 | starts with the three banner lines, an empty input, no history and cursor -1 |
| Terminal.InteractiveTerminal.Edit | client/src/components/InteractiveTerminal.tsx:240 | the input takes the typed value |
| Terminal.InteractiveTerminal.ProcessCommand | client/src/components/InteractiveTerminal.tsx:115-149 | the loop builds exactly `Processed` of the old screen, with the corrected lookup (see Findings) |
| Terminal.InteractiveTerminal.Enter | client/src/components/InteractiveTerminal.tsx:152-158 | a non-blank input joins the history and resets the cursor; the command is processed and the input cleared |
| Terminal.InteractiveTerminal.ArrowUp | client/src/components/InteractiveTerminal.tsx:159-167 | moves the cursor by `UpIndex` and shows that entry; nothing on an empty history |
| Terminal.InteractiveTerminal.ArrowDown | client/src/components/InteractiveTerminal.tsx:168-180 | moves the cursor by `DownIndex` and shows that entry or an empty input; nothing at -1 |
| Typing.InitialInv | client/src/components/TypingEffect.tsx:16-18 | for a non-empty word list, the initial state satisfies the invariant |
| Typing.Step | client/src/components/TypingEffect.tsx:20-41 | each step keeps the shown text a prefix of the current word, keeps the index in range, and changes the length by at most one |
| Typing.Delay | client/src/components/TypingEffect.tsx:23-38 | a deleting step waits `deletingSpeed`; the step that switches to deleting waits `typingSpeed` plus `pauseDuration`; any other typing step waits `typingSpeed` |
| Typing.Run | client/src/components/TypingEffect.tsx:20-41 | any number of steps keeps the invariant |
| Typing.RunCompose | client/src/components/TypingEffect.tsx:20-41 | running a then b steps is running a+b steps, times adding up |
| Typing.TypeOut | client/src/components/TypingEffect.tsx:24-26 | typing adds one character per step at `typingSpeed` each |
| Typing.DeleteOut | client/src/components/TypingEffect.tsx:31-32 | deleting removes one character per step at `deletingSpeed` each |
| Typing.TypeAndPause | client/src/components/TypingEffect.tsx:24-29 | from nothing, a word is typed out and its pause taken in n+1 steps and (n+1)·typing+pause ms |
| Typing.DeleteAndAdvance | client/src/components/TypingEffect.tsx:31-36 | a shown word is deleted and the next word (wrapping) selected in n+1 steps and (n+1)·deleting ms |
| Typing.WordCycle | client/src/components/TypingEffect.tsx:20-41 | a word of n characters is typed, paused on, deleted and followed by the next (wrapping) in 2n+2 steps and (n+1)(typing+deleting)+pause ms |
| Typing.TypingEffect.constructor | client/src/components/TypingEffect.tsx:10-18 | starts with no text at the first word, typing |
| Typing.TypingEffect.Tick | client/src/components/TypingEffect.tsx:20-41 | one timer firing moves the state by `Step` after `Delay` ms |
| Hero.TypingWordsStart | client/src/components/HeroSection.tsx:7 | the hero's word list is non-empty, as the animation needs |
| Hero.Settings | client/src/components/HeroSection.tsx:29 | no settings before the query answers |
| Hero.GetUrl | client/src/components/HeroSection.tsx:31-38 | a missing or empty value gives the default; `email` gets `mailto:`; any other value is used as is |
| Hero.IsExternal | client/src/components/HeroSection.tsx:63 | `mailto:` links and the `#` placeholder open in place; every other URL opens in a new tab |
| Hero.EmailLinkNeverExternal | client/src/components/HeroSection.tsx:21-63 | the e-mail link never opens in a new tab |
| Hero.DefaultsBeforeLoad | client/src/components/HeroSection.tsx:17-29 | before load every link has its default and none is external |
| Hero.OtherLinkExternalIff | client/src/components/HeroSection.tsx:63 | a non-e-mail link is external iff its setting is non-empty, not `#` and not a `mailto:` URL |
| Hero.StoredSettingShown | client/src/components/HeroSection.tsx:25-37 | a non-empty stored setting for the key of a link other than e-mail becomes that link's URL |
| ContactForm.Utf16Length | client/src/components/ContactForm.tsx:16-18 | the JavaScript length is between the character count and twice it, and equal to it on the BMP |
| ContactForm.Validate | client/src/components/ContactForm.tsx:15-19 | no errors iff name ≥ 2, e-mail accepted, message ≥ 10; each rule's message appears iff that rule fails. It concatenates `FieldErrorOf`, the per-input rule, in input order |
| ContactForm.UntouchedFormRejected | client/src/components/ContactForm.tsx:29-33 | the default values fail on name and message |
| ContactForm.ServerAcceptsFormBody | client/src/components/ContactForm.tsx:37-40 | what the form posts, the server's schema accepts as sent |
| ContactForm.ServerAcceptsWhatFormRejects | client/src/components/ContactForm.tsx:15-19 | a body the form can never send is still stored with 201 |
| ContactForm.WithField | client/src/components/ContactForm.tsx:101-150 | typing into one input changes that input and no other |
| ContactForm.Only | client/src/components/ContactForm.tsx:101-150 | the errors shown under one input are exactly the errors for that input |
| ContactForm.OnlyAppend | client/src/components/ContactForm.tsx:101-150 | picking one input's errors distributes over concatenation |
| ContactForm.OnlyOfRule | client/src/components/ContactForm.tsx:15-19 | one input's rule yields errors for that input only |
| ContactForm.OnlyOfValidate | client/src/components/ContactForm.tsx:15-19 | the errors for one input in the full validation are exactly that input's rule |
| ContactForm.RevalidateKeepsValidation | client/src/components/ContactForm.tsx:26-33 | after a submit attempt, `Revalidate` (react-hook-form's default `reValidateMode: 'onChange'`: the edited input gets its rule on the new values and the others keep their errors) gives the same errors as validating all of the new values |
| ContactForm.ContactFormState.constructor | client/src/components/ContactForm.tsx:25-34 | starts with empty values, no errors, not pending, not submitted, no submit attempt |
| ContactForm.ContactFormState.Edit | client/src/components/ContactForm.tsx:101-150 | the edited input takes the typed text and the others keep theirs; before a submit attempt the errors stay as they are, after one the errors are `Revalidate` of the old errors: the edited input is re-validated and the other inputs keep their errors |
| ContactForm.ContactFormState.Submit | client/src/components/ContactForm.tsx:59-61 | only a shown, idle, valid form issues the POST, with its values as body; the errors are the validation result, and the form records the submit attempt |
| ContactForm.ContactFormState.OnSuccess | client/src/components/ContactForm.tsx:41-49 | shows the thank-you panel and resets the form, clearing the submit attempt |
| ContactForm.ContactFormState.OnError | client/src/components/ContactForm.tsx:50-56 | keeps the values; only the request ends |
| ContactForm.ContactFormState.ConfirmationElapsed | client/src/components/ContactForm.tsx:48 | the form is shown again |

## Left out

- I/O and failures of the database itself are left out: a lost connection or a failed query. The modelled storage fails only on a unique-constraint violation, so a GET route never answers 500 in the model.
- Logging through `console.error` is not modelled.
- `gen_random_uuid()` and `defaultNow()` are caller-supplied arguments. The model does not promise that ids are fresh: a collision is modelled as the database's error.
- Concurrency: the read-then-write race in `setSetting` between two requests is not modelled, and calls are sequential.
- `ORDER BY created_at DESC` leaves rows with equal timestamps in an unspecified order. The model fixes one (a stable sort). Contracts only promise the order and the permutation.
- Queries.NewestFirst: the model does not promise which of two equal timestamps comes first, because the SQL does not either.
- Issue details are reduced to a path and an expected type. Zod's `code`, `received` and `message` texts are not modelled.
- The insert schemas also accept and drop unknown keys. That is proved (`UnpickedKey`), but zod's full type system (coercions, refinements) is not modelled.
- `createUser`, `getUser`, `getUserByUsername` and `getBlogPost` have no route, and are modelled only in the storage.
- Terminal.LowerChar: only ASCII letters are lowered. The Unicode case mapping of other characters is not modelled, including U+212A KELVIN SIGN, which lowers to `k`.
- Terminal: scrolling, focus and rendering are not modelled.
- Terminal.Processed: uses the corrected lookup `Lookup` (own table entries only), so `constructor` and `__proto__` get the `bash:` error line. As written, the code pushes the found member as the line's content: the `Object` function for `constructor`, and the object `Object.prototype` for `__proto__`. React then throws while rendering that object as a child. `LookupAsWritten` records only that the lookup finds something.
- Terminal.InteractiveTerminal.ProcessCommand: proved against `Processed`, so it has the same corrected behaviour for `constructor` and `__proto__`.
- Routes.SettingsGet: answers the corrected object `SettingsMap`, so a stored `__proto__` setting appears in it. As written, the route drops that key (see Findings). `SettingsMapAsWritten` gives the object as written, and `SettingsMapAsWrittenAgrees` shows the two are equal when no key is `__proto__`.
- Routes.GetSettings: its loop builds the corrected object with a map update. It does not model the prototype setter that swallows a `__proto__` assignment.
- Routes.SettingSetThenGet: is about the corrected object. For the key `__proto__`, the GET as written does not show the value just set.
- Typing: timers are discrete steps. The delays are returned, not waited for.
  - Changing `words` while the animation runs is not modelled.
  - Texts are sequences of Unicode scalar values. JavaScript's `substring` works on UTF-16 code units and can split a surrogate pair; that is not modelled. The hero's words are all in the BMP.
- Typing.TypingEffect.constructor: it requires a non-empty word list. With no words, the component reads `words[0].length` and throws.
- ContactForm: the e-mail format check is a parameter `isEmail`, not zod's regular expression.
  - The toasts and the 5-second timer are modelled only as the state changes they cause.
  - The network request is the returned body.
- The rendering-only components and the seed script are not part of this model.

## Findings

| source | as written | input that shows it | evidently intended | confidence | as-written member | corrected member |
|---|---|---|---|---|---|---|
| routes.ts:159-162 | `settingsMap` is a plain object literal. `settingsMap["__proto__"] = value` calls the prototype setter, which ignores a string, so that key is never in the response | POST /api/settings `{"key":"__proto__","value":"x"}` answers 201, but GET /api/settings has no `__proto__` key | every stored setting appears in the settings object | not executed | Routes.SettingsMapAsWrittenLosesProto | Routes.SettingsMapLastWins |
| client/src/components/InteractiveTerminal.tsx:133-145 | `commands[trimmedCmd]` on an object literal also finds inherited members. `constructor` (a function) and `__proto__` (an object) are truthy, so the found branch runs and no error line is printed | typing `constructor` or `__proto__` | an unknown command prints the `bash: ...` error line | not executed | Terminal.InheritedMemberIsNotReported | Terminal.UnknownCommandReported |
