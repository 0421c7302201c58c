# PRD generation pipeline, modelled in Dafny

This project models the core of a requirements-writing web application.
A signed-in user describes a product, and the `generatePRD` mutation turns that
description into a Product Requirements Document (PRD). The mutation:

- builds a fixed prompt;
- asks a language model for a JSON object;
- cuts the object out of the reply with a greedy brace match;
- parses it, checks four required keys, and answers with a `{success, data | error}` envelope.

Around the mutation sit the pages that use it:

- The project wizard validates the first step, checks the reply's overview, writes one COMPLETED `Generation` record and bumps the user's monthly counter.
- The detail page reads the stored sections back with defaults.
- The admin page searches, counts, tallies plans and deletes entries.
- The dashboard shows the quota line, gates the New Project button and colours statuses.
- The registration form runs its checks in order before calling sign-up.

Modules, one per source file plus shared runtime pieces:

| module | file | what it holds |
|---|---|---|
| `Wrappers` | wrappers.dfy | `Option` and `Result` |
| `Text` | text.dfy | JavaScript's `String(n)`, `join`, `includes`, ASCII `toLowerCase`, `trim`, and UTF-16 `length` |
| `Lists` | lists.dfy | `filter` and counting |
| `Json` | json.dfy | JSON values, ToBoolean truthiness, property access, `JSON.stringify` and a recursive-descent `JSON.parse` over objects without duplicate or integer-like keys, with the round trip `Parse(Stringify(v)) == Some(v)` proved |
| `Schema` | schema.dfy | records and enums of amplify/data/resource.ts |
| `GeneratePrd` | generate_prd.dfy | amplify/functions/generatePRD/handler.ts |
| `ProjectPage` | project_page.dfy | src/pages/ProjectPage.tsx, as the class `ProjectSession` |
| `ProjectDetail` | project_detail.dfy | src/pages/ProjectDetailPage.tsx, with the class `ProjectDetailView` |
| `AdminPage` | admin_page.dfy | src/pages/AdminPage.tsx, with the class `AdminConsole` |
| `Dashboard` | dashboard.dfy | src/pages/DashboardPage.tsx |
| `RegisterPage` | register_page.dfy | src/pages/RegisterPage.tsx, as the class `RegisterForm` |

Some things the code does cannot run inside the model, so they are inputs:

- The language-model call is a function parameter `invoke` from prompt to reply. A `Run` records the prompt that was sent, so "no model call" is `prompt == None`.
- The mutation's answer, the signed-in user, the clock and the id the store assigns are parameters of the page methods.
- Store writes are kept in maps plus an ordered log of the writes issued.

Some of the code's own comments and schema suggest more than the code does. The model follows the code:

- **Argument checks.** The comment at amplify/functions/generatePRD/handler.ts:15 says `title` is required, but the test under it checks `idea`, and `idea` is then tested a second time. `title` is never tested, and a missing `idea` is reported as a missing title (`GeneratePrd.CheckArguments`, `GeneratePrd.TitleNeverChecked`).
- **Falsy arguments.** The required arguments are tested only for falsiness (amplify/functions/generatePRD/handler.ts:16-27), so an argument made only of spaces passes.
- **Stray brace.** The comment at amplify/functions/generatePRD/handler.ts:138 says the regular expression extracts the first valid JSON object. It is greedy from the first `{` to the last `}`, so a stray `{` in the prose before the object is swallowed into the candidate (`GeneratePrd.ExtractTakesStrayBrace`). The object is extracted exactly only when no `{` precedes it and no `}` follows it (`GeneratePrd.ExtractEmbedded`).
- **FAILED status.** The status enum at amplify/data/resource.ts:52 has a FAILED value, but no path of the project page writes a FAILED `Generation`. A failed generation only sets the error text (`ProjectPage.ProjectSession.HandleGenerate`).

## Model

The functions that carry the modelled behaviour, such as `GeneratePrd.Handle`, `GeneratePrd.BuildPrompt`, `GeneratePrd.Extract` and `ProjectPage.DecideGenerate`, have no rows of their own. What they promise is stated by the lemmas about them listed below.

| member | source | states |
|---|---|---|
| Schema.CreateUserProfile | amplify/data/resource.ts:20-28 | a created profile carries the given fields, and `generationsThisMonth` is the given count or its schema default 0 |
| Schema.StatusNames | amplify/data/resource.ts:52 | the four status names, and nothing else, denote statuses, one each; each name reads back as its status |
| Schema.PlanNames | amplify/data/resource.ts:25 | FREE, PRO and ENTERPRISE, and nothing else, are plans, one each |
| Schema.RoleNames | amplify/data/resource.ts:24 | USER and ADMIN, and nothing else, are roles |
| GeneratePrd.FalsyIdeaReportsTitle | amplify/functions/generatePRD/handler.ts:16-18 | an empty `idea` fails with "Missing required argument: title" and sends no prompt |
| GeneratePrd.FalsyTargetMarketRejected | amplify/functions/generatePRD/handler.ts:25-27 | with `idea` present, an empty `targetMarket` fails with the target-market message before any model call |
| GeneratePrd.TitleNeverChecked | amplify/functions/generatePRD/handler.ts:13-30 | the "idea" message can never be produced; changing `title` never changes the checks; with idea and market present, the prompt is sent |
| GeneratePrd.PromptFieldsInOrder | amplify/functions/generatePRD/handler.ts:87-98 | the prompt opens with the preamble; title, idea and target market each occur verbatim under their headers in that order; the prompt ends with the output contract |
| GeneratePrd.FillFieldsInOrder | amplify/functions/generatePRD/handler.ts:87-134 | the same ordering holds for any preamble and closing text |
| GeneratePrd.ConstraintsSection | amplify/functions/generatePRD/handler.ts:100 | the CONSTRAINTS block is inserted into the prompt exactly when `constraints` is truthy; otherwise the prompt equals the one built without it |
| GeneratePrd.ContextSection | amplify/functions/generatePRD/handler.ts:101 | the same for the ADDITIONAL CONTEXT block and `additionalContext` |
| GeneratePrd.ContractNamesRequiredKeys | amplify/functions/generatePRD/handler.ts:103-134 | the output contract in the prompt names each of the four keys the validator requires |
| GeneratePrd.FirstIndexOf | amplify/functions/generatePRD/handler.ts:140 | the result is the position of the first occurrence of the character, or none when the character is absent |
| GeneratePrd.LastIndexOf | amplify/functions/generatePRD/handler.ts:140 | the result is the position of the last occurrence of the character, or none when the character is absent |
| GeneratePrd.ExtractSpec | amplify/functions/generatePRD/handler.ts:140-141 | the candidate is always a piece of the reply. Without a `{` before a `}` it is the whole reply. Otherwise it starts with `{` and ends with `}`, with no `{` before it and no `}` after it |
| GeneratePrd.ExtractIsSpan | amplify/functions/generatePRD/handler.ts:140-141 | on a match the candidate runs from the first `{` to the last `}` inclusive |
| GeneratePrd.ExtractIdempotent | amplify/functions/generatePRD/handler.ts:140-141 | extracting from a candidate gives the candidate back |
| GeneratePrd.ExtractEmbedded | amplify/functions/generatePRD/handler.ts:140-141 | an object between prose with no `{` before it and no `}` after it is extracted exactly |
| GeneratePrd.ExtractTakesStrayBrace | amplify/functions/generatePRD/handler.ts:140-141 | a `{` in the prose before an object makes the candidate longer than the object |
| GeneratePrd.FirstMissing | amplify/functions/generatePRD/handler.ts:147-152 | no key is reported exactly when every key is truthy; a reported key is falsy and every key before it is truthy |
| GeneratePrd.ValidateIff | amplify/functions/generatePRD/handler.ts:143-154 | validation succeeds iff the candidate parses and all four required keys are truthy; it then returns the parsed value unchanged; a missing-field error names a required key |
| GeneratePrd.MissingUserStoriesReportedFirst | amplify/functions/generatePRD/handler.ts:147-151 | keys are checked in order: a truthy `productRequirements` followed by an absent `userStories` reports `userStories` |
| GeneratePrd.ProseRejected | amplify/functions/generatePRD/handler.ts:140-157 | a reply with no `{` is always rejected |
| GeneratePrd.InvalidReplyMessage | amplify/functions/generatePRD/handler.ts:155-157 | every parse or key failure ends as the one fixed "invalid response format" message |
| GeneratePrd.SuccessCarriesParsedReply | amplify/functions/generatePRD/handler.ts:57-63 | a success means the model answered and its reply validated to exactly the returned data, whose four required keys are truthy |
| GeneratePrd.ResponseShape | amplify/functions/generatePRD/handler.ts:60-70 | the returned string parses back to the envelope object. `success` is true with `data` and no `error`, or false with a non-empty `error` and no `data` |
| GeneratePrd.WrappedReplyAccepted | amplify/functions/generatePRD/handler.ts:52-63 | a reply that wraps a complete PRD object in brace-free prose yields success with that object |
| Json.ParseStringify | amplify/functions/generatePRD/handler.ts:144 | `JSON.parse(JSON.stringify(v))` is `v` for every value |
| Json.ValueRoundTrip | amplify/functions/generatePRD/handler.ts:144 | reading a written value gives it back and stops exactly at its end |
| Json.Lookup | amplify/functions/generatePRD/handler.ts:149 | a key is found exactly when some member has it, and the value found is that of the last member with that key, as `JSON.parse` keeps the last duplicate |
| ProjectPage.ProjectSession.constructor | src/pages/ProjectPage.tsx:34-48 | step 0, not generating, no error, no result, no profile, empty form, empty write log |
| ProjectPage.ProjectSession.LoadProfile | src/pages/ProjectPage.tsx:57-60 | the first listed profile is cached; an empty list leaves the cache as it was |
| ProjectPage.ProjectSession.HandleNext | src/pages/ProjectPage.tsx:69-76 | at step 0 with an empty title or idea: the error is set and the step stays; otherwise the error is cleared and the step advances by one |
| ProjectPage.ProjectSession.HandleBack | src/pages/ProjectPage.tsx:162-168 | the step moves back by one |
| ProjectPage.ProjectSession.Reset | src/pages/ProjectPage.tsx:179-182 | the result is cleared and the wizard returns to step 0 |
| ProjectPage.ProjectSession.Commit | src/pages/ProjectPage.tsx:97-121 | the record write is logged; the store holds the record when the create was kept. A thrown create stops there. Otherwise, with a cached profile, the counter write is logged whatever the create's answer was, and the store's profile is bumped when the update was kept. A thrown update leaves the record written, the counter unbumped and no result. With no throw the data is shown; the thrown message is returned |
| ProjectPage.ProjectSession.HandleGenerate | src/pages/ProjectPage.tsx:78-128 | generating ends false. A rejected reply, a thrown mutation included, sets its message and changes no record, profile or result. An accepted reply logs exactly the decided writes and stores the record when the create was kept. When a store call throws, its message (or the fallback) is the error and the result stays; otherwise the error is cleared and the data is shown. The log stays well ordered |
| ProjectPage.MutationErrorsReported | src/pages/ProjectPage.tsx:82-85 | a thrown mutation is reported by its message, returned errors by the first one's, and nothing is written |
| ProjectPage.StoreFailures | src/pages/ProjectPage.tsx:97-124 | a thrown create ends with its message and only the record write issued. A thrown update ends with its message after both writes were issued, with the stored profile unchanged. No message exactly when neither issued call threw |
| ProjectPage.AcceptedIff | src/pages/ProjectPage.tsx:82-109 | a reply is accepted iff the mutation resolved with no errors, its data parses, and has a truthy `data.productRequirements.overview`. The record is COMPLETED and time-stamped, with no error message, and copies the form and the user. Every rejection has a message |
| ProjectPage.CounterWrite | src/pages/ProjectPage.tsx:113-119 | an accepted generation writes the record first, then, only with a cached profile and a create that did not throw, the cached count (or 0) plus one. Two accepted generations write the same counter value |
| ProjectPage.WritesPreserveOrder | src/pages/ProjectPage.tsx:98-119 | appending the writes of any outcome keeps every record COMPLETED and every counter write right after a record |
| ProjectPage.HandlerFailureIsIncomplete | src/pages/ProjectPage.tsx:87-93 | every failure envelope of the handler reaches the page as "AI response was incomplete", so nothing is written |
| ProjectPage.HandlerSuccessStored | src/pages/ProjectPage.tsx:98-109 | a success envelope with a truthy overview is accepted. The record stores each of the four validated sections as its JSON text |
| ProjectDetail.ProjectDetailView.constructor | src/pages/ProjectDetailPage.tsx:57-60 | loading, with no error, result or form |
| ProjectDetail.ProjectDetailView.LoadProject | src/pages/ProjectDetailPage.tsx:68-121 | loading ends false. A decoded record shows its result and form with no error. Otherwise the error is set, and the previous result and form stay |
| ProjectDetail.MissingSectionsDefault | src/pages/ProjectDetailPage.tsx:84-95 | a missing or empty section decodes to its fixed default |
| ProjectDetail.SectionRoundTrip | src/pages/ProjectDetailPage.tsx:85-94 | a section stored as the JSON text of a value reads back as that value; an absent one as the default |
| ProjectDetail.DetailRoundTrip | src/pages/ProjectDetailPage.tsx:80-106 | the record the project page writes loads back with each section it carried, the default for each one it lacked, and the form as entered |
| ProjectDetail.HandlerToDetail | src/pages/ProjectDetailPage.tsx:84-106 | end to end: a successful handler run with a truthy overview is shown with exactly the four sections the handler validated, and the form as entered |
| ProjectDetail.AllSectionsShown | src/pages/ProjectDetailPage.tsx:84-95 | an accepted record whose data has all four keys is shown with those four values |
| ProjectDetail.LoadErrors | src/pages/ProjectDetailPage.tsx:107-117 | a thrown message (or "Failed to load project"), the prefixed comma-joined errors, or "Project not found"; every error text is non-empty |
| AdminPage.FilteredUsersSpec | src/pages/AdminPage.tsx:420-424 | a user is listed iff the lowercased search occurs in the lowercased email or user id; filtering keeps order over concatenation |
| AdminPage.FilteredGenerationsSpec | src/pages/AdminPage.tsx:426-431 | the same over title, user id and target market |
| AdminPage.SearchDefaults | src/pages/AdminPage.tsx:420-431 | an empty search lists everything, and the case of the search does not matter |
| AdminPage.StatusCountsBounded | src/pages/AdminPage.tsx:433-436 | the completed and failed counts sum to at most the number of generations; all are completed iff the completed count is the total |
| AdminPage.PlanTallySum | src/pages/AdminPage.tsx:437-444 | every user is tallied under exactly one plan, a missing plan under FREE, so the tallies sum to the number of users |
| AdminPage.PlanCounts | src/pages/AdminPage.tsx:437-444 | the accumulated dictionary has an entry exactly for the plans some user is on, holding that plan's tally |
| AdminPage.StatusColorDistinguishes | src/pages/AdminPage.tsx:133-144 | "default" exactly for PENDING or no status; each other colour names one status |
| AdminPage.RemoveSpec | src/pages/AdminPage.tsx:395 | removing by id drops exactly the entries with that id, keeps the rest, is idempotent, and changes nothing when no entry has the id |
| AdminPage.AdminConsole.constructor | src/pages/AdminPage.tsx:305-319 | the given lists, no errors, the dialog closed, not loading |
| AdminPage.AdminConsole.ConfirmDelete | src/pages/AdminPage.tsx:377-383 | the dialog opens for the given kind, id and label |
| AdminPage.AdminConsole.HandleDelete | src/pages/AdminPage.tsx:385-416 | success removes the id from the matching list only; returned errors or a thrown error leave both lists and set only the matching error. The dialog closes and loading ends in every outcome |
| Dashboard.ProjectCountMessages | src/pages/DashboardPage.tsx:85-93 | 0, 1 and 5 projects give the three fixed lines |
| Dashboard.ProjectCountGeneral | src/pages/DashboardPage.tsx:85-96 | any other count opens with the count, which reads back as the count. The line ends in " remaining)", and the figure before it is the difference to the quota: its digits while some quota is left, or a minus sign and the overshoot's digits past the quota |
| Dashboard.NewProjectGate | src/pages/DashboardPage.tsx:138-141 | the button shows iff some quota remains. It is hidden at the count whose line says the limit is reached, and only the quota count gives that line |
| Dashboard.StatusColoursAgree | src/pages/DashboardPage.tsx:72-83 | the dashboard's grey is the admin chip's default, and two statuses share a dashboard colour iff they share a chip colour |
| Dashboard.OwnedProjects | src/pages/DashboardPage.tsx:39-52 | one row per generation of the signed-in user |
| Dashboard.OwnedProjectsSpec | src/pages/DashboardPage.tsx:39-52 | every row comes from one of the user's own generations, and each of them appears |
| RegisterPage.RegisterForm.constructor | src/pages/RegisterPage.tsx:22-30 | empty fields, no error, not loading, not awaiting confirmation, no sign-up calls |
| RegisterPage.RegisterForm.Enter | src/pages/RegisterPage.tsx:22-26 | the five text fields take the typed values, and nothing else changes |
| RegisterPage.RegisterForm.HandleSubmit | src/pages/RegisterPage.tsx:42-86 | the typed fields never change. A failed check sets its message and makes no sign-up call without touching loading. Otherwise exactly one sign-up call is made and loading ends false. Success awaits confirmation with no error; failure shows the thrown message or the fallback |
| RegisterPage.ValidationIff | src/pages/RegisterPage.tsx:46-64 | the form passes iff neither name is all white space, the passwords agree, and the password has at least 8 UTF-16 code units |
| RegisterPage.CheckOrder | src/pages/RegisterPage.tsx:46-64 | first name before last name before the mismatch before the length rule |
| RegisterPage.LengthBoundary | src/pages/RegisterPage.tsx:61-64 | 8 or more characters always pass, fewer than 4 never do, 8 code units pass and 7 do not |
| RegisterPage.RequestWellFormed | src/pages/RegisterPage.tsx:69-79 | sign-up receives the email as typed as user name and email, non-blank names with no white space at either end, and a long enough password |
| Text.TrimEmptyIff | src/pages/RegisterPage.tsx:46 | `trim()` gives "" exactly when every character is white space |
| Text.TrimKeepsNoSpace | src/pages/RegisterPage.tsx:75-76 | a non-empty trimmed name has no white space at either end |
| Text.IncludesIff | src/pages/AdminPage.tsx:422 | `includes` is true exactly when the needle occurs somewhere |
| Text.NatToString | src/pages/DashboardPage.tsx:89 | the decimal text of a count has digits only, no leading zero, and reads back as the count |
| Text.Utf16Length | src/pages/RegisterPage.tsx:61 | `length` lies between the number of characters and twice that |
| Lists.Filter | src/pages/AdminPage.tsx:420 | `filter` keeps exactly the elements passing the test, and is no longer than the list |
| Lists.FilterAppend | src/pages/AdminPage.tsx:420 | filtering distributes over concatenation, so order is kept |

## Left out

- The language-model request is abstracted away: the Bedrock client, the payload constants and decoding of the response body. The model is the parameter `invoke`, which answers with text or a thrown message.
- JSON numbers with a fraction or an exponent are read as errors, and `Num` holds integers only. The model's replies rely on strings, arrays and objects, and floating point is not modelled.
- A `\u` escape that names a UTF-16 surrogate is rejected, because a Dafny `char` is a Unicode scalar value. Pairs of such escapes are not joined.
- Json.Stringify: object members are kept as parsed. JavaScript keeps one entry per duplicate key and moves integer-like keys first, so for such replies the stored and returned text differs from the model's. `Json.Lookup` returns the last duplicate, as `JSON.parse` keeps it.
- Engine wordings: the messages of the JavaScript engine's own errors (the SyntaxError of `JSON.parse`, the TypeError of `errors[0].message` on an empty array) are fixed constants, because their text depends on the engine.
- `toLowerCase` is modelled on the ASCII letters A to Z only, because Unicode case mapping tables are not modelled.
- Loaders: the admin page's `loadUsers` and `loadGenerations` and the dashboard's `loadProjects` are left out, with their `localeCompare` and date sorts and their error texts. Only the owner filter of `loadProjects` is modelled (`Dashboard.OwnedProjects`). Their results are the lists the model starts from.
- Browser storage and logging: the `sessionStorage` draft in the project page and all `console` logging are left out, because they do not affect the state the model tracks.
- Auth, routing and authorization: the auth context, route guards, `getCurrentUser` (a parameter) and navigation are left out, along with the `.authorization(...)` rules of the schema. They are session and cloud configuration.
- In the registration page, `handleConfirmation` (code confirmation, sign-in and navigation) and the password visibility toggles are left out. The core of that page is the submit checks.
- Concurrency: the race between two sessions on `generationsThisMonth` is left out; one sequential session is modelled.
- AdminPage.PlanCounts: the dictionary is keyed by `Plan`. The string key "FREE" that a missing plan falls back to is the same entry as the FREE plan.
- ProjectPage.ProjectSession.HandleNext: requires a step below 2, because the source offers Next only on the first two steps.
- ProjectPage.ProjectSession.HandleBack: modelled as one step back from any later step. The source sets the step to 0 or 1 from steps 1 and 2, which is the same move.
- ProjectPage.ProjectSession.HandleGenerate: `getCurrentUser` is a parameter that always resolves. A rejected lookup would end like a thrown create, but before any write.
- ProjectPage.ProjectSession.Commit: a store call that throws is taken to have stored nothing, although a network failure could come after the store kept the write.
