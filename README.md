# Resume builder front end: editor, chat panel and dashboard, in Dafny

This project models the three pieces of deterministic data handling in the
client of an AI-assisted resume builder, and proves what they promise.

- **Manual resume editor** (`InputPanel.tsx`, module `ResumeForm`). Each handler turns the
  current `ResumeData` into a new one. It either sets one personal-info field, or it appends,
  updates by id or removes by id an entry of the education, experience or skills list.
  The handlers are functions over sequences. Their contracts state the frame ("nothing else
  changes"), the fresh entry's defaults, per-field lens laws, order preservation and exact
  removal. Editing an experience description goes through `join('\n')` and `split('\n')`,
  and their round trips are proved.
- **Chat panel** (`OutputPanel.tsx`, module `ChatPanel`). A class holds the transcript, the
  input box, the `processing` flag and the `showChat` flag. `Send` records the user's message.
  `Complete` is the delayed callback and records the canned AI reply. `GetAIResponse` is the
  keyword classifier. It is proved total, case-insensitive and exact about its priority order.
- **Dashboard** (`app/dashboard/page.tsx`, module `Dashboard`). A class holds the identity,
  the resume list, the search query and the loading flag. Loading maps the server's ids to
  cards. Deleting drops a card only after a success. Download names the file
  `resume_<id>.html`. The search is a case-insensitive substring filter that keeps list order.

Two shared modules hold the building blocks. `Seqs` has `filter` and an id-guarded `map`,
with order and multiplicity lemmas. `Text` has `toLowerCase`, `includes`, `trim`,
`join`/`split` on newlines and the decimal `toString` of timestamps.

Inputs from outside the program become parameters:
- Clock readings (`Date.now()`, `new Date()`) are a `now: nat`.
- The outcome of each HTTP request is a `Response` value: ok with a payload, not ok, or thrown.
- The stored identity is passed to the dashboard's constructor.

## Model

| member | source | states |
|---|---|---|
| Seqs.Filter | src/components/create/InputPanel.tsx:61 | `filter` keeps exactly the elements that pass, and never grows the list |
| Seqs.FilterIsSubsequence | src/components/create/InputPanel.tsx:58-63 | the survivors of a filter keep their original relative order |
| Seqs.FilterCount | src/components/create/InputPanel.tsx:58-63 | every copy of a rejected element is removed and every copy of a kept one survives |
| Seqs.FilterMultiset | src/app/dashboard/page.tsx:94 | the multiplicity statement for all elements at once |
| Seqs.FilterKeepsAll | src/components/create/InputPanel.tsx:58-63 | when every element passes, the list comes back unchanged (removing an absent id is a no-op) |
| Seqs.FilterIdempotent | src/components/create/InputPanel.tsx:58-63 | filtering twice by the same test equals filtering once |
| Seqs.FilterAppend | src/components/create/InputPanel.tsx:43-46 | filtering an appended list filters each part |
| Seqs.MapWhere | src/components/create/InputPanel.tsx:52-54 | the id-guarded `map` keeps length and rewrites exactly the selected positions |
| Text.Lower | src/components/create/OutputPanel.tsx:65 | lowercasing keeps length, maps each character, and leaves no upper-case ASCII letter |
| Text.LowerIdempotent | src/components/create/OutputPanel.tsx:65 | lowercasing twice equals lowercasing once |
| Text.ContainsEmpty | src/app/dashboard/page.tsx:75 | every string includes the empty string |
| Text.TrimStart | src/components/create/OutputPanel.tsx:37 | the result is a suffix that starts with a non-whitespace character, and only whitespace was dropped |
| Text.TrimEnd | src/components/create/OutputPanel.tsx:37 | the result is a prefix that ends with a non-whitespace character, and only whitespace was dropped |
| Text.TrimEmptyIffBlank | src/components/create/OutputPanel.tsx:37 | the trimmed input is empty exactly when every character is whitespace |
| Text.Trim | src/components/create/OutputPanel.tsx:37 | `trim()` returns a slice of its input that neither starts nor ends with whitespace, and only whitespace was cut from either end |
| Text.Contains | src/components/create/OutputPanel.tsx:67-81 | `includes`: the substring occurs at some position of the string |
| Text.Join | src/components/create/InputPanel.tsx:357 | `join('\n')`: the lines separated by single newlines; its partner is `Split`, through `SplitJoin` and `JoinSplit` |
| Text.Split | src/components/create/InputPanel.tsx:358 | `split('\n')` never returns an empty list, and no returned line holds a newline |
| Text.SplitAtNewline | src/components/create/InputPanel.tsx:358 | splitting at a newline splits each side separately |
| Text.SplitSingleLine | src/components/create/InputPanel.tsx:358 | a line without newlines splits into itself alone |
| Text.SplitJoin | src/components/create/InputPanel.tsx:357-358 | `split` of `join` returns a non-empty list of newline-free lines unchanged |
| Text.SplitJoinEmpty | src/components/create/InputPanel.tsx:357-358 | the empty description list comes back as one empty line |
| Text.JoinSplit | src/components/create/InputPanel.tsx:357-358 | `join` of `split` returns any text unchanged |
| Text.DecimalString | src/components/create/InputPanel.tsx:36 | `Date.now().toString()` is a non-empty string of decimal digits |
| Text.DecimalRoundTrip | src/components/create/InputPanel.tsx:36 | parsing the decimal id gives back the timestamp |
| Text.DecimalStringInjective | src/components/create/InputPanel.tsx:36 | two ids are equal exactly when their timestamps are equal, so ids can collide |
| ResumeForm.WithPersonalField | src/components/create/InputPanel.tsx:27-30 | the spread-and-set gives the named field the value and keeps every other field |
| ResumeForm.WithEducationField | src/components/create/InputPanel.tsx:53 | the spread-and-set gives the named field the value and keeps every other field |
| ResumeForm.WithExperienceField | src/components/create/InputPanel.tsx:86 | the spread-and-set gives the named field the value and keeps every other field |
| ResumeForm.WithSkillField | src/components/create/InputPanel.tsx:115 | the spread-and-set gives the named field the value and keeps every other field |
| ResumeForm.SetPersonalInfo | src/components/create/InputPanel.tsx:24-32 | only the named personal field changes; the other personal fields and all lists are carried over |
| ResumeForm.AddEducation | src/components/create/InputPanel.tsx:34-47 | exactly one entry is added at the end, with the timestamp id and empty fields; earlier entries and everything else are unchanged |
| ResumeForm.UpdateEducation | src/components/create/InputPanel.tsx:49-56 | length and order are kept; each entry with the id gets the field set and keeps its other fields; other entries and the rest of the data are unchanged; an absent id gives equal data |
| ResumeForm.RemoveEducation | src/components/create/InputPanel.tsx:58-63 | no entry with the id remains; every other entry keeps its multiplicity and relative order; the rest of the data is unchanged; an absent id gives equal data |
| ResumeForm.AddExperience | src/components/create/InputPanel.tsx:65-80 | exactly one entry is added at the end, with the timestamp id, `current` false, no description lines and empty text fields; all else is unchanged |
| ResumeForm.UpdateExperience | src/components/create/InputPanel.tsx:82-89 | as for education, for the experience list |
| ResumeForm.RemoveExperience | src/components/create/InputPanel.tsx:91-96 | as for education, for the experience list |
| ResumeForm.EditDescription | src/components/create/InputPanel.tsx:357-358 | after typing text into a description, the entry stores at least one line, no line holds a newline, and the lines join back to exactly that text (with `SplitJoin` this pins them to `text.split('\n')`); the entry keeps every other field; other entries and the rest of the data are unchanged |
| ResumeForm.DescriptionRoundTrip | src/components/create/InputPanel.tsx:357-358 | showing and reading back a non-empty, newline-free description gives the same lines; an empty one comes back as `[""]` |
| ResumeForm.AddSkill | src/components/create/InputPanel.tsx:98-109 | exactly one skill is added at the end, with the timestamp id, empty name, level "Intermediate" and category "Technical"; all else is unchanged |
| ResumeForm.UpdateSkill | src/components/create/InputPanel.tsx:111-118 | as for education, for the skills list |
| ResumeForm.RemoveSkill | src/components/create/InputPanel.tsx:120-125 | as for education, for the skills list |
| ResumeForm.RemovalIdempotent | src/components/create/InputPanel.tsx:58-63 | removing the same id twice equals removing it once, in each of the three lists |
| ResumeForm.AddThenRemove | src/components/create/InputPanel.tsx:34-63 | adding an education entry and removing its id restores the data, when the fresh id was not in use |
| ChatPanel.GetAIResponse | src/components/create/OutputPanel.tsx:64-87 | the reply is one of five fixed strings, chosen by the first keyword group the lowercased message includes: concise/shorter, then highlight/emphasize, then technical/skills, then experience/work, else the default |
| ChatPanel.RepliesDistinct | src/components/create/OutputPanel.tsx:67-86 | the five canned replies are pairwise different |
| ChatPanel.CaseInsensitive | src/components/create/OutputPanel.tsx:65 | the reply to a message equals the reply to its lowercased form |
| ChatPanel.ConciseBeatsWork | src/components/create/OutputPanel.tsx:67-83 | "Shorter work history" mentions work but gets the concise reply |
| ChatPanel.ChatPanel.constructor | src/components/create/OutputPanel.tsx:31-34 | the panel starts with an empty transcript and input, not processing, chat hidden |
| ChatPanel.ChatPanel.SendEnabled | src/components/create/OutputPanel.tsx:279-283 | the send button is enabled exactly when the input is not blank and no reply is awaited, and then the input box is enabled too |
| ChatPanel.ChatPanel.Type | src/components/create/OutputPanel.tsx:276 | the input box holds the typed text |
| ChatPanel.ChatPanel.Send | src/components/create/OutputPanel.tsx:36-48 | blank input changes nothing; otherwise exactly one user message with the untrimmed input is appended, the input is cleared, `processing` and `showChat` are set, and a reply to that input is scheduled |
| ChatPanel.ChatPanel.Complete | src/components/create/OutputPanel.tsx:51-61 | exactly one AI message with `getAIResponse` of the sent text is appended and `processing` is cleared; input and `showChat` are unchanged |
| ChatPanel.ChatPanel.CloseChat | src/components/create/OutputPanel.tsx:231 | the close button hides the transcript |
| ChatPanel.Exchange | src/components/create/OutputPanel.tsx:36-61 | a send followed by its reply extends the transcript by the user's text and then the reply to that text, and leaves the panel idle |
| Dashboard.ResumesFromIds | src/app/dashboard/page.tsx:48-58 | one card per returned id, in order, with that id, the user's email, the title "Resume " plus the id's first six characters, and the load time as both timestamps |
| Dashboard.LoadedIds | src/app/dashboard/page.tsx:50-57 | the cards' ids are exactly the server's ids, in the server's order |
| Dashboard.TitleFor | src/app/dashboard/page.tsx:53 | the template `Resume ${id.slice(0, 6)}`; its properties are stated by `TitleShape` |
| Dashboard.TitleShape | src/app/dashboard/page.tsx:53 | a title is "Resume " followed by the first min(6, length) characters of the id |
| Dashboard.MatchesQuery | src/app/dashboard/page.tsx:75 | the search test: the lowercased title includes the lowercased query |
| Dashboard.FilterResumes | src/app/dashboard/page.tsx:74-76 | a card is kept exactly when its lowercased title includes the lowercased query; order is kept; every copy of a matching card survives and no copy of another does; an empty query keeps everything |
| Dashboard.WithoutId | src/app/dashboard/page.tsx:94 | exactly the cards with the id are dropped; the others keep multiplicity and order |
| Dashboard.DownloadFileName | src/app/dashboard/page.tsx:115 | the file name is `resume_` + id + `.html`, from which the id can be read back |
| Dashboard.FileNamesDistinct | src/app/dashboard/page.tsx:115 | different resumes are saved under different file names |
| Dashboard.DashboardPage.constructor | src/app/dashboard/page.tsx:20-23 | the page starts with no cards, an empty query and `loading` set |
| Dashboard.DashboardPage.Visible | src/app/dashboard/page.tsx:74-76 | the shown cards are the matching cards of the list, each with its multiplicity, in list order |
| Dashboard.DashboardPage.SetQuery | src/app/dashboard/page.tsx:152 | the search box holds the typed query |
| Dashboard.DashboardPage.LoadResumes | src/app/dashboard/page.tsx:40-69 | without an identity nothing changes; otherwise the list becomes the mapped ids after an ok array response and empty after a non-ok response, a non-array payload or a throw, and `loading` ends false |
| Dashboard.DashboardPage.Delete | src/app/dashboard/page.tsx:82-101 | after a success the cards with the id are dropped; a failure, a throw or a missing identity leaves the list unchanged |
| Dashboard.DashboardPage.Download | src/app/dashboard/page.tsx:103-117 | a file is saved exactly when there is an identity and the response is ok, under a name that carries the id |
| Dashboard.DashboardPage.Preview | src/app/dashboard/page.tsx:119-125 | the resume is opened exactly when there is an identity |

## Left out

- HTTP requests, toasts, router redirects, `encodeURIComponent` URLs, blobs and object URLs are not modelled. They are browser and network I/O. Each handler instead takes how its request ended.
- The dashboard's identity check against `localStorage` and its redirect (src/app/dashboard/page.tsx:26-34) are not modelled; they are browser storage and navigation. The identity is a constructor parameter.
- `setTimeout` delays are not modelled as timing. The delayed step is the separate `Complete` method.
- `handleFileUpload` (src/components/create/InputPanel.tsx:127-132), `handleDownload` (OutputPanel) and the create page's `handleGenerate` are left out. They only log or wait.
- Rendering, animation and the presentational components are not modelled.
- The type definitions file (`src/lib/types/types.ts`) is not part of this model. The field lists are those the handlers and the create page's initial data use. `projects` and `certifications` are carried as opaque entries, because no handler touches them.
- The `content: {}` member of a dashboard card is not modelled, because nothing reads it.
- The error text shown after a failed load or delete is not modelled, because it only feeds a toast.
- Text.Lower: lowercases ASCII letters only, not JavaScript's full Unicode `toLowerCase`.
- Dashboard.TitleFor: counts characters as Unicode scalar values, where JavaScript's `slice` counts UTF-16 code units.
- ResumeForm.UpdateExperience: requires the value to have the type the `Experience` type declares for the field. The handler takes `any`, but every call site passes a value of the right type.
- ChatPanel.ChatPanel.Send: the handler itself does not check `processing`; only the disabled controls stop a second send. The model keeps that, with a queue of scheduled replies. `Settled` (one reply outstanding, flagged by `processing`) is proved preserved only for sends made while the button is enabled.
- A `resume_ids` array holding an element without a `slice` method (a number, `null`, a plain object) is not a separate case. `id.slice` throws on it and the catch empties the list, so it is given to `LoadResumes` as `Threw`.
- A `resume_ids` array holding an array element is not modelled. Arrays have a `slice` method, so the source would build a card from it, but the list response only carries strings.
- Entry ids come from the clock and may collide. No lemma assumes they are unique.
