# Football players: form coercion and the create endpoint

This project models the data-entry core of a small Next.js application that
keeps a table of football players. It has two parts:

- **The two player pages.** `src/app/players/page.tsx` is the list page with its
  create/edit modal. `src/app/players/create/page.tsx` is the stand-alone create
  page. Both keep every form field as text. On submit they coerce the text into
  a typed payload: blank optional text becomes null, an empty position becomes
  null, numbers that are blank or do not parse become null, counters default to
  0, and dates are cut before their `T`. Opening a record for editing maps the
  record back to text.
- **The collection route `/api/players`.** There are two versions: the typed
  `route.ts` and the older `route.js`. `GET` returns the rows. `POST` in `route.ts`
  checks the names, binds the 14 values of the INSERT with null and 0
  defaults, and answers 201, 400 or 500. `POST` in `route.js` binds the ten
  leading members as received and the counters with `?? 0`, and answers 201
  or 500.

Modules:

- `Wrappers`: `Option`.
- `JsText`: JavaScript's `trim` (with the ECMAScript white-space set),
  `split(c)[0]`, `String(n)` and `Number(t)`.
- `JsValue`: JavaScript values, truthiness, `??` and property lookup.
- `Http`: the collection path, the request body, the query outcome and the response.
- `PlayersTable`: the INSERT column list.
- `PlayerForm`: the coercion layer. Both pages define `toNumOrNull`,
  `toNumOrZero`, `toDateOnly`, `emptyForm` and the payload construction with
  the same behaviour (list page lines 55-78, 82-100 and 182-198; create page
  lines 42-60, 69-87 and 110-125). The model defines each of them once. Only
  the list page has `toStr` and `openEdit`, and the create page writes
  `toNumOrZero` as the single expression `toNumOrNull(s) ?? 0`.
- `PlayersList`: the list page's component state, as the class `PlayersPage`.
- `CreatePlayer`: the create page's component state, as the class
  `CreatePlayerPage`.
- `PlayersRoute`: `route.ts`.
- `PlayersRouteJs`: `route.js`.
- `SubmitToInsert`: a page submit followed from the payload to the bind values.

Each handler is a function of the request body and of the outcome of its
awaited query. The query is an input, not a call: either the value it
returned or the string form of the error it threw. `onSubmit` awaits `fetch`
in the middle. Each page therefore has two methods for it: `BeginSubmit` sets
`saving` and builds the request, and `EndSubmit` takes the reply and clears
`saving`.

Behaviours of the code that the model keeps as written:

- **Name check.** The typed `POST` rejects falsy names, not blank ones. A name
  made only of spaces passes, and so does any truthy non-string value.
- **No check in `route.js`.** The untyped `POST` performs no name check at all.
- **PUT vs POST.** The list page picks PUT when `editingId` is truthy. An id of
  0 therefore posts. `Target` states this.
- **Empty dates.** Date text that starts with `T` is cut to the empty string,
  and that empty string is sent as present, not as null
  (`PlayerForm.LeadingTGivesEmptyDate`).

## Model

| member | source | states |
|---|---|---|
| JsText.Trim | src/app/players/page.tsx:56 | `trim()` is the input with only white space removed before and after it (a contiguous slice with blank text on both sides); it is empty exactly for blank text, never starts or ends with white space, and leaves text without outer white space unchanged |
| JsText.BeforeFirst | src/app/players/page.tsx:74 | `split("T")[0]` is the longest prefix without `T`; where it stops short, the next character is `T` |
| JsText.ShowNum | src/app/players/page.tsx:51 | `String(n)` is non-empty and has no white space at either end |
| JsText.ParseNum | src/app/players/page.tsx:58-59 | `Number(t)` on trimmed text is a number exactly for a decimal numeral with an optional sign; an accepted text is never blank, and an unsigned or `+` numeral is never negative |
| JsText.ParseShow | src/app/players/page.tsx:58-59 | `Number` reads back what `String(n)` wrote, giving `n` |
| Http.ErrorText | src/app/players/page.tsx:213 | `text \|\| fallback` is the server text when that is non-empty, else the fallback, and is never empty |
| PlayerForm.FieldNamed | src/app/players/page.tsx:168-169 | an input name designates the field whose key it is, and no field when no key matches |
| PlayerForm.FieldNamedKey | src/app/players/create/page.tsx:94-99 | every field's key designates that field |
| PlayerForm.Set | src/app/players/page.tsx:169 | the spread update gives the named field the new text and keeps every other field |
| PlayerForm.ToStr | src/app/players/page.tsx:49-52 | `toStr` is empty exactly for null, and non-blank text for a number |
| PlayerForm.ToNumOrNull | src/app/players/page.tsx:55-60 | `toNumOrNull` is null for blank text; otherwise it is the number the trimmed text denotes, or null when that text denotes none |
| PlayerForm.ToNumOrZero | src/app/players/page.tsx:63-66 | `toNumOrZero` is the `toNumOrNull` value when present, else 0, so 0 for blank text |
| PlayerForm.ToDateOnly | src/app/players/page.tsx:69-78 | `toDateOnly` is null exactly for blank text; otherwise a prefix of the trimmed text with no `T`, cut exactly at the first `T` |
| PlayerForm.TextOrNull | src/app/players/page.tsx:187 | blank optional text becomes null, other text is kept untrimmed |
| PlayerForm.EmptyForm | src/app/players/page.tsx:82-100 | every text field of the initial form is empty and every counter shows "0" |
| PlayerForm.ToPayload | src/app/players/page.tsx:182-198 | the names as typed; position null exactly for `""`, else as chosen; nationality, team and league through `TextOrNull` (null exactly for blank text, else untrimmed); jersey number, height and weight through `toNumOrNull`; the four counters through `toNumOrZero`; the date through `toDateOnly`, so a present date has no `T` |
| PlayerForm.EditForm | src/app/players/page.tsx:144-160 | the edit form's date holds no `T`, and each counter shows non-empty text; `EditFormShowsRecord` gives the full mapping |
| PlayerForm.EditFormShowsRecord | src/app/players/page.tsx:144-159 | `openEdit` shows null text as `""` and present text as itself; a null number as `""` and a present one as its numeral; a null counter as `"0"`; the date as the record's date cut exactly at its first `T` |
| PlayerForm.NumTextRoundTrip | src/app/players/page.tsx:147 | a number shown by `toStr` is read back by `toNumOrNull` as the same value, and null as null |
| PlayerForm.CounterRoundTrip | src/app/players/page.tsx:156-159 | a counter shown by `openEdit` is submitted back unchanged, and a null counter as 0 |
| PlayerForm.TextRoundTrip | src/app/players/page.tsx:149 | optional text shown by `openEdit` is submitted back, except blank or null text, which becomes null |
| PlayerForm.DateRoundTrip | src/app/players/page.tsx:151 | the date shown by `openEdit` is submitted back as its trimmed part before `T`, or null when that part is blank |
| PlayerForm.EmptyFormPayload | src/app/players/create/page.tsx:69-87 | the untouched `emptyForm` submits all ten optional fields as null and all four counters as 0 |
| PlayerForm.EditedNumbersRoundTrip | src/app/players/page.tsx:185-197 | after `openEdit`, the numeric fields and counters of the payload equal the record's, with null counters as 0 |
| PlayerForm.EditedNamesRoundTrip | src/app/players/page.tsx:145-148 | after `openEdit`, the names come back as the record's (null as `""`) and the position as the record's, with an empty one as null |
| PlayerForm.EditedOptionalTextRoundTrip | src/app/players/page.tsx:187-193 | after `openEdit`, nationality, team and league come back as the record's, with blank or null text as null |
| PlayerForm.EditedDateRoundTrip | src/app/players/page.tsx:189 | after `openEdit`, the date comes back as the trimmed part of the record's date before `T`, or null when that part is blank |
| PlayerForm.EditedTextRoundTrip | src/app/players/page.tsx:183-193 | after `openEdit`, the names, position, texts and date of the payload are the record's, with blank text and empty position as null |
| PlayerForm.EditThenSubmit | src/app/players/page.tsx:142-198 | editing a record and submitting it unchanged sends back the record field by field, as the two halves state |
| PlayerForm.NullFieldsStayNull | src/app/players/page.tsx:142-160 | a record whose optional fields are null submits them back as null, with its counters |
| PlayerForm.TimestampStoredAsDate | src/app/players/page.tsx:69-78 | any date text that does not start with white space, followed by `T` and any time part (trailing white space included), is sent as the date alone |
| PlayerForm.IsoTimestampStoredAsDate | src/app/players/create/page.tsx:55-60 | `"2020-05-01T00:00:00.000Z"` is sent as `"2020-05-01"` |
| PlayerForm.LeadingTGivesEmptyDate | src/app/players/create/page.tsx:58 | date text starting with `T` is sent as a present empty string, not as null |
| PlayersList.Target | src/app/players/page.tsx:201-202 | a truthy `editingId` selects `PUT /api/players/{id}`; null or 0 selects `POST /api/players` |
| PlayersList.PutTargetsEditedId | src/app/players/page.tsx:201 | the path segment of a PUT reads back as the id being edited |
| PlayersList.PlayersPage.constructor | src/app/players/page.tsx:103-114 | initial state: no players, loading, modal closed, create mode, empty form, not saving |
| PlayersList.PlayersPage.ReceivePlayers | src/app/players/page.tsx:117-126 | the table takes the fetched rows when they form an array and no rows otherwise, and loading ends |
| PlayersList.PlayersPage.OpenCreate | src/app/players/page.tsx:135-139 | create mode: `editingId` null, form reset to `emptyForm`, modal open |
| PlayersList.PlayersPage.OpenEdit | src/app/players/page.tsx:142-162 | edit mode for the record's id, form filled from the record, modal open |
| PlayersList.PlayersPage.OnChange | src/app/players/page.tsx:165-170 | only the named field changes; every other field and all other state stay |
| PlayersList.PlayersPage.BeginSubmit | src/app/players/page.tsx:176-208 | `saving` is set, and the request carries the form's payload to the endpoint the edit mode selects |
| PlayersList.PlayersPage.EndSubmit | src/app/players/page.tsx:210-221 | an ok reply closes the modal and reloads the table; a failure yields the server text, "Request failed" or the fetch error, and changes nothing else; `saving` ends false |
| CreatePlayer.FailureMessage | src/app/players/create/page.tsx:135-145 | a failed create alerts the server text, "Create failed" when that is empty, or the fetch error's message |
| CreatePlayer.CreatePlayerPage.constructor | src/app/players/create/page.tsx:90-91 | the page starts from `emptyForm`, not saving |
| CreatePlayer.CreatePlayerPage.OnChange | src/app/players/create/page.tsx:94-99 | only the named field changes |
| CreatePlayer.CreatePlayerPage.BeginSubmit | src/app/players/create/page.tsx:104-132 | `saving` is set and the form's payload is always posted to `/api/players` |
| CreatePlayer.CreatePlayerPage.EndSubmit | src/app/players/create/page.tsx:134-148 | an ok reply navigates to `/players`, a failure alerts its message; `saving` ends false on both paths |
| PlayersRoute.IsRowArray | src/app/api/players/route.ts:60-62 | an array result is never null and never passes `hasInsertId`, so the SELECT guard and the INSERT guard never both hold |
| PlayersRoute.NamesGiven | src/app/api/players/route.ts:113 | the names pass exactly when the body is an object holding both `first_name` and `last_name` with truthy values |
| PlayersRoute.HasInsertId | src/app/api/players/route.ts:65-72 | `hasInsertId` holds exactly when the result has a numeric `insertId` |
| PlayersRoute.Get | src/app/api/players/route.ts:79-99 | GET answers 200 with the rows when the result is an array and 200 with `[]` otherwise; a thrown error gives 500 with its string form |
| PlayersRoute.BindValues | src/app/api/players/route.ts:121-136 | 14 values in INSERT column order; absent or null optional members bind as null, absent or null counters as 0, everything else as received |
| PlayersRoute.Post | src/app/api/players/route.ts:108-190 | a query is issued exactly when both names are truthy, with `BindValues`; 400 exactly when a parsed non-null body has a falsy name; 201 exactly when the result has a numeric `insertId`, with message "success" and echoing the id and the names; 500 "Insert failed" when it has none; 500 with the error text for thrown errors |
| PlayersRoute.MissingLastNameRejected | src/app/api/players/route.ts:113-118 | `{"first_name":"Leo"}` is refused with 400 and inserts nothing |
| PlayersRouteJs.Get | src/app/api/players/route.js:5-19 | GET answers 200 with the query result unchanged, or 500 when it threw |
| PlayersRouteJs.BindValues | src/app/api/players/route.js:64-79 | 14 values in INSERT column order; the ten leading ones exactly as received; counters with `?? 0` |
| PlayersRouteJs.Post | src/app/api/players/route.js:22-99 | every parsed non-null body reaches the insert, with no name check; 201 with message "success", `result.insertId` and the names as received; any thrown error gives 500 |
| PlayersRouteJs.BindingsAgree | src/app/api/players/route.js:65-74 | the two handlers bind the same values, except that an absent optional member is undefined here and null in the typed handler |
| SubmitToInsert.PayloadJson | src/app/players/page.tsx:207 | the serialised payload has a member for every INSERT column |
| SubmitToInsert.TypedBindsPayload | src/app/api/players/route.ts:122-135 | the typed handler binds a page payload exactly as it is, in column order |
| SubmitToInsert.UntypedBindsPayload | src/app/api/players/route.js:65-78 | the untyped handler binds a page payload exactly as it is, in column order |
| SubmitToInsert.TypedPostOfPayload | src/app/api/players/route.ts:113-136 | a page payload is inserted exactly when both names are non-empty, and is otherwise refused with 400 before any query |
| SubmitToInsert.UntypedPostOfPayload | src/app/api/players/route.js:22-80 | the untyped handler inserts every page payload |
| SubmitToInsert.FormSubmitBindsPayload | src/app/players/create/page.tsx:110-132 | a form with both names filled is inserted with its coerced payload by either handler; an empty name gets 400 from the typed handler and no insert |
| SubmitToInsert.EmptyFormInsertsDefaults | src/app/api/players/route.ts:121-136 | the untouched form with its names filled inserts null in every optional column and 0 in every counter |

## Left out

- JSX rendering, `Field`, `SelectPosition`, the table, the modal's close button and the styling: presentation only.
- `fetch` itself, `router.push`/`refresh`, `confirm`, `alert` and `onDelete`: network and browser calls. A reply is an input to `EndSubmit`. An alert is the `Alert` outcome, and a navigation is the `Navigate` outcome.
- `fetchPlayers`'s async sequencing (loading set, `res.json()`, errors while fetching): only the state it leaves behind is modelled, as `ReceivePlayers`.
- `@/lib/db`, mysql2, the SQL text and the `NOW()` timestamps: a library that is not part of this model. The query's result or thrown error is an input.
- The single-item routes under `src/app/api/players/[id]/`, the edit and view pages, `src/app/page.tsx` and `next.config.ts`: not part of this model.
- JsText.ParseNum: `Number(t)` is modelled for optionally signed decimal integers only. Fractions, exponents and hex, octal or binary literals, which JavaScript parses to finite numbers, give `None` here.
- JsText.ParseNum: numbers are unbounded integers here, not IEEE doubles. A numeral above `Number.MAX_VALUE` (from about 1.8 × 10^308 on) is `Infinity` in JavaScript, so `toNumOrNull` gives null and `toNumOrZero` gives 0, while the model gives the exact value. Numerals beyond 2^53 are rounded in JavaScript and exact here.
- PlayerForm.ToNumOrNull: inherits that restriction. Height and weight are modelled as integers, so floating-point values are not represented.
- JsText.ShowNum: `String(n)` is modelled for integers only, always as plain digits. JavaScript switches to exponent form (`"1e+21"`) from 10^21, which the model does not; `ParseShow` is therefore a statement about the unbounded model, not about doubles of that size.
- NaN, and JSON numbers that are not integers, are not values of `JsValue.Value`.
- PlayersRoute.Post: a null body raises a TypeError when `body.first_name` is read. A null query result does not throw here: `hasInsertId(null)` is false, which gives 500 "Insert failed".
- PlayersRouteJs.Post: a null body raises a TypeError while it is destructured, and a nullish query result raises one when `result.insertId` is read.
- PlayersRoute.Post and PlayersRouteJs.Post: the model gives the string forms of these TypeErrors in V8's wording; that wording is not checked against an engine.
- PlayersList.PlayersPage.OnChange: an input name that is no form field adds an extra key to the JavaScript state object. No payload reads that key, and the model leaves the form unchanged.
- CreatePlayer.CreatePlayerPage.OnChange: the same holds on the create page. An input name that is no form field adds an extra key to the JavaScript state object, no payload reads it, and the model leaves the form unchanged.
- A failure of `res.text()` while reading an error reply is not modelled.
- PlayersList.PlayersPage.EndSubmit: on the list page the thrown error escapes `onSubmit` as an unhandled rejection. The model returns its message instead of modelling the rejection.
