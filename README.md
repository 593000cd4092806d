# Portfolio site: blog proxy, contact form, navigation, language and demo chat

A Dafny model of the behaviour-bearing parts of a Next.js portfolio site.

- **The blog API route** (`GET /api/notion`).
  - The list path checks its configuration and queries the Notion database sorted by `Date`, descending.
  - It turns every row into a post summary through fixed field fallbacks: title, date, description, cover and slug.
  - A row that is not a full page becomes a placeholder entry. The other rows are unaffected.
  - The detail path validates the `id` and passes the page and the first 100 of its blocks through.
  - Notion's answers come in as a `Backend` value. Each handler returns its HTTP response and the list of calls it made.
- **The older Notion helper** (`lib/notion.js`). It builds the same summaries from `?.`/`||` chains, with different fallbacks.
  - Three things throw and turn the whole row into the placeholder: a `Name` that is not a title, a `Content Summary` that is not rich text, and a cover or file that lacks the URL object its type names.
  - A `Date` or `Featured Image` of the wrong type is skipped, because the code reaches it through `?.`.
  - A failed query yields an empty list.
- **The contact form.**
  - The e-mail check is modelled as a scan and proved equal to the page's regular expression.
  - Submission validates name, then e-mail, then message.
  - The state transitions of the form are modelled, with the e-mail service's outcome as a parameter.
- **The navigation bar.** It holds the link table and the active-link rule, and it opens and closes the mobile menu.
- **The language provider.**
  - It switches between English and French.
  - A stored value is adopted only if it is a valid code.
  - The language is written back to storage and to the document only after mount.
- **The AI-assistant page's scripted demo conversation.**
  - A prefix of a fixed six-message script is revealed, one message per timer.
  - A typing indicator shows before each assistant reply, and the script starts over at the end.
  - The cursor blinks.

Modules:
- `Wrappers` holds `Option` and `Result`.
- `Text` holds JavaScript's `\s` white-space class, `toLowerCase`, `trim` and the slug rule `title.toLowerCase().replace(/\s+/g, '-')`.
- `Cms` holds the Notion records and the post summary.
- `NotionRoute` models `app/api/notion/route.ts`.
- `NotionLib` models `lib/notion.js`.
- `Contact` models `app/contact/page.tsx`.
- `Navigation` models `app/components/Navigation.tsx`.
- `LanguageProvider` models `app/components/LanguageProvider.tsx`.
- `AiAssistant` models `app/ai-assistant/page.tsx`.

Pure logic is written as functions and lemmas. Component state that click handlers, effects and timers update is written as classes:
- `Contact.ContactForm`
- `Navigation.Menu`
- `LanguageProvider.LanguageState`
- `AiAssistant.DemoChat`

Each handler is a method with a `modifies` clause.

The slug rule's `/\s+/g` replaces each whole run of white space with a single `-`, so the title `"  A   B"` gets the slug `"-a-b"` (`Text.SlugOfSpacedLetters`).

## Model

| member | source | states |
|---|---|---|
| Text.LowerChar | app/api/notion/route.ts:185 | Lower-casing a character leaves no ASCII capital and keeps white space white space and everything else not. |
| Text.TrimStart | app/contact/page.tsx:37 | The result is a suffix of the input. The removed prefix is all white space, and the result starts with a character that is not. It is empty exactly for an all-white-space input. |
| Text.TrimEnd | app/contact/page.tsx:42 | The mirror image of `TrimStart`, for the trailing run. |
| Text.BlankIffAllWhitespace | app/contact/page.tsx:37-45 | `!s.trim()` holds exactly when every character of `s` is white space. |
| Text.Slug | app/api/notion/route.ts:185 | A slug never contains white space. |
| Text.CollapseWhitespace | app/api/notion/route.ts:185 | `replace(/\s+/g, '-')` leaves no white space behind. |
| Text.CollapseFixesWhitespaceFree | app/api/notion/route.ts:185 | A string without white space is left unchanged by the replacement. |
| Text.CollapseKeepsLowered | app/api/notion/route.ts:185 | The replacement keeps a lower-cased string lower-cased. |
| Text.CollapseRun | app/api/notion/route.ts:185 | Around one maximal white-space run, the output splits around exactly one `-`. |
| Text.SlugIdempotent | lib/notion.js:65 | Slugging a slug changes nothing. |
| Text.CollapseBetweenWords | lib/notion.js:65 | Two white-space-free words around a run become `x-y`. |
| Text.SlugOfTwoWords | app/api/notion/route.ts:185 | `"Hello World"` gets the slug `"hello-world"`. |
| Text.SlugOfSpacedLetters | app/api/notion/route.ts:185 | `"  A   B"` gets the slug `"-a-b"`: a leading run and an inner run each become one `-`. |
| Cms.SummaryIsNotPlaceholder | app/api/notion/route.ts:187-196 | No extracted summary equals a placeholder, even one titled "Error loading post", because the placeholder's slug `error` is not the slug of its title. |
| NotionRoute.TitleFallback | app/api/notion/route.ts:118-121 | The title is the first `plain_text` of a non-empty `Name` title, and `Untitled` otherwise. |
| NotionRoute.DateFallback | app/api/notion/route.ts:124-131 | The date is `Date.date.start` when the `Date` property has a date. Otherwise it is `created_time` when the page has one, also for a `Date` whose `date` is null. Otherwise it is the request time. It depends on the request time only when the first two are missing. |
| NotionRoute.DescriptionFallback | app/api/notion/route.ts:138-148 | A non-empty `Content Summary` wins, and `Description` is then never consulted. Otherwise the first text of `Description` is used, else `""`. |
| NotionRoute.CoverPrecedence | app/api/notion/route.ts:155-173 | A page cover decides alone, by its type: `external` or `file`. A cover of any other type gives null. Without a cover, the first `Featured Image` file is used, its `file` URL before its `external` URL. Without such a file there is no cover. Any cover found is a URL the page offers. |
| NotionRoute.ExtractReadsKnownProperties | app/api/notion/route.ts:117-186 | Only the five known properties, id, `created_time` and cover are read. Pages that agree on them get the same entry. |
| NotionRoute.SummarizeAll | app/api/notion/route.ts:107-199 | One entry per result, in the results' order, each the per-page callback's value. |
| NotionRoute.SummarizeAllIsolatesFailures | app/api/notion/route.ts:107-197 | An entry is the placeholder exactly when its row is not a full page. Otherwise it keeps the row's id and its slug follows its title. |
| NotionRoute.ResolveTokenFirstSet | app/api/notion/route.ts:10 | The token is the first non-empty variable among the integration token and the OAuth secret. Failing both, it is the API key as it stands. It is set exactly when one of the three is. |
| NotionRoute.ListOutcomes | app/api/notion/route.ts:48-213 | Missing credentials give a 500 before any call. Otherwise the database is retrieved and then queried sorted by `Date`, descending. A failed query gives a 500 with its message. Otherwise the status is 200 with one summary per row. The result of the preliminary database retrieve never changes the outcome. |
| NotionRoute.QueryFailureIsNotEmptyList | app/api/notion/route.ts:96-99 | A failed query never answers like an empty database does. |
| NotionRoute.DetailPath | app/api/notion/route.ts:24-259 | Only a non-empty `id` takes the detail path. The handler's own 400 for an empty id is therefore never what `GET` answers. Success returns the page and the first 100 blocks in order, after exactly a retrieve and a list call. Either call failing gives a 500. |
| NotionLib.TitleFallback | lib/notion.js:44 | The title is the first `Name` text when that text is non-empty, else `Untitled`. It throws only for a `Name` that is not a title property. |
| NotionLib.DateFallback | lib/notion.js:45 | A non-empty `Date.date.start` wins. In every other case the date is `created_time`. There is no request-time fallback. |
| NotionLib.DescriptionIgnoresDescriptionProperty | lib/notion.js:46 | Only `Content Summary` is read. It throws only when that property is not rich text. |
| NotionLib.CoverPrecedence | lib/notion.js:49-57 | A page cover decides alone, by its type. Without a cover, the first `Featured Image` file is used, also by its type. Otherwise there is no cover. The lookup throws exactly when the object it picks lacks the URL object its type names. Anything but `external` reads `file`. |
| NotionLib.SummarizeAll | lib/notion.js:40-79 | One entry per result, in order. |
| NotionLib.GetNotionDataOutcomes | lib/notion.js:23-85 | An entry is the placeholder with the row's own id exactly when extraction throws. A failed query gives `[]`, the same as an empty database. |
| NotionLib.GetPageContent | lib/notion.js:87-96 | The record map on success and `null` on failure. |
| NotionLib.TitleAgreesWithRoute | lib/notion.js:44 | Where this version yields a title, it is the route's title, except that an empty text becomes `Untitled`. |
| NotionLib.DescriptionAgreesWithRoute | lib/notion.js:46 | The description is the first `Content Summary` text, or `""` without one. A non-empty description agrees with the route's. Where the route falls back to `Description`, this version gives `""`. |
| Contact.ScanLocalFindsSplit | app/contact/page.tsx:24 | A successful scan finds an `@` after a non-empty run of e-mail characters, followed by a domain. |
| Contact.SplitPassesScanLocal | app/contact/page.tsx:24 | Conversely, any such split makes the scan succeed. |
| Contact.DomainSplit | app/contact/page.tsx:24 | A domain is exactly `[^\s@]+\.[^\s@]+`. |
| Contact.EmailCheckMatchesPattern | app/contact/page.tsx:24-25 | The scan accepts exactly the strings matching `/^[^\s@]+@[^\s@]+\.[^\s@]+$/`. |
| Contact.EmailErrorMeaning | app/contact/page.tsx:19-31 | No error for a non-empty address matching the pattern. An empty one is "required". Anything else is "invalid". |
| Contact.CheckSubmissionOrder | app/contact/page.tsx:37-45 | The form is sent exactly when the trimmed name and message are non-empty and the e-mail is accepted. Each failure is reported only when every earlier check passed. |
| Contact.ContactForm.constructor | app/contact/page.tsx:11-17 | Empty fields, no error, not submitting. |
| Contact.ContactForm.ValidateEmail | app/contact/page.tsx:19-31 | Shows the error for the value and returns true exactly when none is shown. |
| Contact.ContactForm.ChangeName | app/contact/page.tsx:109 | Typing in the name field sets the name. |
| Contact.ContactForm.ChangeMessage | app/contact/page.tsx:146 | Typing in the message field sets the message. |
| Contact.ContactForm.ChangeEmail | app/contact/page.tsx:122-125 | Typing in the e-mail field sets it, and re-validates only while an error is shown. |
| Contact.ContactForm.BlurEmail | app/contact/page.tsx:126 | Leaving the e-mail field always re-validates it. |
| Contact.ContactForm.Submit | app/contact/page.tsx:33-56 | Each validation outcome leaves a defined error state. A request carrying the form's fields, addressed to "Ali Khries", is produced exactly when all checks pass, and the form then enters the in-flight state. It is never called while a send is in flight, because the button is disabled then. |
| Contact.ContactForm.FinishSend | app/contact/page.tsx:65-79 | Delivery clears the fields and shows success. Failure keeps the fields and shows the retry error. Either way the in-flight state ends. |
| Contact.ContactForm.HandleSubmit | app/contact/page.tsx:33-80 | Nothing is sent unless every check passes, and the fields change only after a send. A send always ends the in-flight state, and a rejected submission leaves the fields, the banner and the in-flight flag as they were. A rejected submission shows the error of the first failed check: "Please enter your name", the e-mail error, or "Please enter a message". A failed send leaves the success banner as it was. The disabled button keeps it from running during a send. |
| Contact.ContactForm.DismissSuccess | app/contact/page.tsx:71-73 | The success banner's timeout hides it. |
| Navigation.ActiveFlags | app/components/Navigation.tsx:49-62 | One highlight flag per link, in table order, each `isActive(href)`. |
| Navigation.PrefixesComparable | app/components/Navigation.tsx:32 | Two `startsWith` matches of one path are prefixes of each other. |
| Navigation.NotPrefixOfRoot | app/components/Navigation.tsx:31-32 | No href other than `/` and `""` is a prefix of `/`. |
| Navigation.AtMostOneActive | app/components/Navigation.tsx:30-33 | In a table with no empty href, one root, and no non-root href a prefix of another, at most one link is active. |
| Navigation.NavItemsSeparated | app/components/Navigation.tsx:15-21 | The site's five-link table has that shape. |
| Navigation.AtMostOneNavItemActive | app/components/Navigation.tsx:113-122 | For every path, at most one of the site's links is highlighted. |
| Navigation.SectionPagesActivateSection | app/components/Navigation.tsx:31-32 | A page below a section (`/projects/x`) activates that section. The root link is active on `/` and not on any longer path. |
| Navigation.Menu.constructor | app/components/Navigation.tsx:28 | The menu starts closed. |
| Navigation.Menu.ToggleMenu | app/components/Navigation.tsx:89 | The menu button flips `isOpen`. |
| Navigation.Menu.CloseFromLink | app/components/Navigation.tsx:117 | A menu link closes the menu. |
| Navigation.Menu.CloseFromBackdrop | app/components/Navigation.tsx:141 | The backdrop closes the menu. |
| LanguageProvider.Code | app/components/LanguageProvider.tsx:30-31 | The stored code is `en` or `fr`. |
| LanguageProvider.ParseStored | app/components/LanguageProvider.tsx:21-24 | A stored value is adopted exactly when it is `en` or `fr`, and as that language. |
| LanguageProvider.ParseStoredCode | app/components/LanguageProvider.tsx:22-31 | Reading back a written code gives the language written. |
| LanguageProvider.MountedLanguage | app/components/LanguageProvider.tsx:15-24 | After mounting, the language is the stored language if valid, else English. |
| LanguageProvider.Toggle | app/components/LanguageProvider.tsx:35-37 | Toggling always changes the language. |
| LanguageProvider.ToggleInvolutive | app/components/LanguageProvider.tsx:36 | Toggling twice is the identity. |
| LanguageProvider.UseLanguage | app/components/LanguageProvider.tsx:56-61 | The context inside a provider, else the error "useLanguage must be used within a LanguageProvider". |
| LanguageProvider.LanguageState.constructor | app/components/LanguageProvider.tsx:15-16 | English, not mounted, browser state untouched. |
| LanguageProvider.LanguageState.Persist | app/components/LanguageProvider.tsx:28-33 | Storage and the `lang` attribute are written with the language only once mounted, and untouched before. |
| LanguageProvider.LanguageState.Mount | app/components/LanguageProvider.tsx:19-33 | Mounting adopts a valid stored code and then writes the language back. |
| LanguageProvider.LanguageState.ToggleLanguage | app/components/LanguageProvider.tsx:35-37 | Toggles the language. Storage and document follow once mounted. |
| LanguageProvider.LanguageState.Context | app/components/LanguageProvider.tsx:45-53 | Nothing is rendered before mounting. Afterwards the context carries the language. |
| AiAssistant.DemoAlternates | app/ai-assistant/page.tsx:10-17 | The script has six messages alternating user and assistant, the user first. |
| AiAssistant.NextIndex | app/ai-assistant/page.tsx:37-62 | After a timer, the index advances by one within the script and returns to 0 past its end. |
| AiAssistant.IndexAfterAdvances | app/ai-assistant/page.tsx:53-59 | Timers within the script advance the index one by one. |
| AiAssistant.IndexAfterSplit | app/ai-assistant/page.tsx:36-63 | Timer runs compose. |
| AiAssistant.DemoCycles | app/ai-assistant/page.tsx:36-63 | The demo repeats: seven timers return to the starting position. |
| AiAssistant.DemoChat.constructor | app/ai-assistant/page.tsx:21-25 | Index 0, nothing shown, not typing, cursor shown. |
| AiAssistant.DemoChat.BeginStep | app/ai-assistant/page.tsx:46-49 | The typing indicator comes on before an assistant message, and only then. |
| AiAssistant.DemoChat.CompleteStep | app/ai-assistant/page.tsx:37-62 | The current message is appended and the index advances. The conversation clears past the end. The shown messages stay the script's first `index` entries. Typing shows only before an assistant reply. |
| AiAssistant.DemoChat.TickCursor | app/ai-assistant/page.tsx:28-33 | The cursor interval flips the cursor. |

## Left out

- Notion SDK, `notion-client`, `emailjs`, browser storage, the document element, `fetch` and `console` are external. Their answers are parameters: the `Backend` value, the `fetched`/`query` results, the `delivered` flag and the stored value. Logging is not modelled.
- `async`/`await`, `Promise.all` concurrency and React's rendering and batching are not modelled. Each effect or handler runs to completion as one method. `Promise.all` is a map in order, because the per-row callbacks never reject.
- Timers (`setTimeout`, `setInterval`) and their delays (530 ms, 1000 ms, 1500 ms, 5000 ms) are not modelled. Firing a timer is a call to the method it would run, and clearing it on unmount is not modelled.
- `new Date().toISOString()` is the `now` parameter.
- The route's URL parsing and its outer catch ("Error processing request") are not modelled. The outer catch of `getAllPosts` ("Failed to fetch posts") is left out too, because every call inside it is already caught.
- The `'title' in database` probe and its log are not modelled. Only the preliminary retrieve's success or failure is kept, and it is shown not to matter.
- `toLowerCase` is modelled for ASCII letters only. Unicode case mapping is not modelled.
- A Notion sub-object that is present but `null` is modelled the same as an absent one.
- The translation table and the `t` function behind `useLanguage` are not part of this model; only the message keys are kept.
- The pages' markup, styling, icons and animations are not modelled. The same goes for the AI page's unused `inputValue` state.
- The e-mail service ids and the contents of the e-mail are not modelled beyond the template parameters.
- `NotionRoute.FirstPage`: the service's `page_size` 100 is modelled as taking the first 100 children. Pagination beyond the first page is not modelled, since the route never follows `next_cursor`.
