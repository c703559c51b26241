# Admin console record handling, modelled in Dafny

This project models the client-side logic of a React admin console for a
content backend (news, banners, departments, vacancies, staff pages and so
on). What is modelled is the part of the console that decides what data
looks like and what is sent, not how it is drawn:

- **Hooks** (`src/hooks/useApi.js`): `useApiCall`, an API call with its
  loading flag, last error and last result; `useForm`, the form values with
  the touched set; and `useFetch`, a fetched collection.
- **Authentication slice** (`src/store/slices/authSlice.js`): the initial
  state from the saved session, the two plain reducers, and the login and
  logout lifecycles.
- **Generic resource page** (`src/components/GenericCrudPage.jsx`). Every
  resource page of the console is an instance of it. The model covers:
  - how a cell shows a value (`getText`) and how a record's id is found;
  - how the form fields are laid out into language groups (`_uz`/`_oz`/`_ru`);
  - how a change event updates the form, including dotted nested names;
  - how the form becomes a JSON or a multipart body;
  - how the edit form is seeded from a record;
  - which four columns the table shows;
  - how the cached record list follows loads, creates, updates and deletes.
- **Post management page** (`src/pages/ManagePostsPage.jsx`):
  - its own `getText`;
  - the loose unwrapping of the list response;
  - deletion behind a confirmation;
  - in-place editing, whose saved values are merged into the cached list.
- **Post composer** (`src/pages/PostNewsPage.jsx`): the initial values, the
  5 MiB image guard, title and content validation, the choice between a
  multipart and a JSON body, and what a success or a failure leaves on the
  page.
- **API explorer** (`src/pages/ApiExplorerPage.jsx`):
  - the endpoint catalogue, with its search filter;
  - `{id}` path templating;
  - the sample bodies for write endpoints;
  - the send step, which stops early on invalid JSON;
  - the status badge of the response, and the unused `statusColor` bands.

JavaScript values are the datatype `Json.Value`:
- `undefined`, `null`, booleans, integers and strings;
- arrays;
- objects, as ordered property lists;
- browser `File`s, as opaque name/size pairs.

Truthiness, `||`, `??`, spreading (`{...o, [k]: v}`, `{...a, ...b}`),
`String(v)`, `String.prototype.replace` with a string pattern (including its
`$` substitution patterns), `trim` and `includes` are defined once, in
`Json` and `Strings`.

Each React component or hook that holds state is a `class`:
- the class's fields are the component's `useState` variables;
- each event handler is one method;
- each method's contract states the whole new state. It does so through a
  `State()` snapshot, e.g.
  `ensures State() == old(State()).(records := ..., loading := false)`.

Every network call becomes a parameter of the handler. The parameter is an
`Api.Outcome`: either `Ok(data)`, or `Err(Failure(responseMessage, message))`.
Handlers that issue a request return that request (verb, URL and body), so
the contracts also state what is sent. `JSON.parse`, `JSON.stringify` and
`fetch` are parameters of the explorer's methods.

## Model

| member | source | states |
|---|---|---|
| Strings.IndexOfFrom | src/components/GenericCrudPage.jsx:189 | the result is the first position at or after `from` where the pattern occurs; none means it occurs nowhere from there on |
| Strings.ContainsIff | src/pages/ApiExplorerPage.jsx:199-202 | `includes` holds exactly when the pattern occurs at some position |
| Strings.SubstitutionLiteral | src/components/GenericCrudPage.jsx:35 | a replacement without `$` is inserted literally by `replace` |
| Strings.ReplaceAbsent | src/pages/ApiExplorerPage.jsx:193-195 | `replace` with a pattern that does not occur returns the string unchanged |
| Strings.ReplaceAtFirst | src/pages/ApiExplorerPage.jsx:193-195 | with a `$`-free replacement, exactly the first occurrence is cut out and the replacement put in its place |
| Strings.TrimStart | src/pages/PostNewsPage.jsx:63-65 | the result is a suffix that starts with a non-space character, and everything removed was white space |
| Strings.TrimEnd | src/pages/PostNewsPage.jsx:63-65 | the result is a prefix that ends with a non-space character, and everything removed was white space |
| Strings.Trim | src/pages/PostNewsPage.jsx:63-65 | `trim()` gives a middle part of the string that neither starts nor ends with white space, and everything cut off on either side is white space |
| Strings.TrimEmptyIff | src/pages/PostNewsPage.jsx:63-64 | `s.trim()` is empty exactly when every character of `s` is white space |
| Strings.ToLower | src/pages/ApiExplorerPage.jsx:199-202 | lower-casing keeps the length |
| Strings.NatToString | src/components/GenericCrudPage.jsx:12 | `String(n)` is a non-empty string of decimal digits with a leading zero only for 0 |
| Strings.NatToStringRoundTrip | src/components/GenericCrudPage.jsx:12 | reading the digits of `String(n)` back gives `n` |
| Strings.IntToStringRoundTrip | src/components/GenericCrudPage.jsx:12 | `String(n)` for an integer is an optional `-` followed by digits, and reading it back gives `n` |
| Json.LookupAbsent | src/hooks/useApi.js:44-47 | reading a property the object does not have gives `undefined` |
| Json.LookupAt | src/pages/PostNewsPage.jsx:78-84 | with distinct keys, reading a key gives the value stored under it |
| Json.LookupValue | src/components/GenericCrudPage.jsx:14 | a property read is `undefined` or one of the object's own values |
| Json.PutLookup | src/hooks/useApi.js:44-47 | after `{...o, [k]: v}`, `k` reads `v` and every other key reads as before |
| Json.PutKeys | src/hooks/useApi.js:44-47 | `{...o, [k]: v}` keeps the key order and appends `k` only when it is new |
| Json.PutDistinct | src/hooks/useApi.js:44-47 | `{...o, [k]: v}` never lists a key twice |
| Json.MergeLookup | src/pages/ManagePostsPage.jsx:77 | in `{...a, ...b}`, a key of `b` reads `b`'s value and every other key reads `a`'s |
| Api.ErrorText | src/hooks/useApi.js:22 | the error message is the server's message if truthy, else the error's own message if truthy, else the fallback; never falsy |
| UseApi.CallErrorText | src/hooks/useApi.js:22 | `execute`'s error message is never falsy, prefers the server's message and falls back to the error's own message and then to "Something went wrong" |
| UseApi.ApiCall.constructor | src/hooks/useApi.js:9-11 | a call starts not loading, with no error and no data |
| UseApi.ApiCall.Execute | src/hooks/useApi.js:13-30 | ends not loading; a success returns and stores the result and clears the error; a failure returns and stores the message and keeps the previous data |
| UseApi.Form.constructor | src/hooks/useApi.js:38-40 | a form starts from its initial values with nothing touched |
| UseApi.Form.HandleChange | src/hooks/useApi.js:42-49 | the event's name gets `checked`, the first file or the value (by input type) and is marked touched; every other value is unchanged |
| UseApi.InputValue | src/hooks/useApi.js:47 | a checkbox writes `checked`, a file input its first file (`undefined` when none), any other input its `value` |
| UseApi.Form.Reset | src/hooks/useApi.js:51-54 | the values return to the initial values and nothing is touched |
| UseApi.Form.SetValue | src/hooks/useApi.js:56-58 | only `name` changes, to `value`; the touched set is unchanged |
| UseApi.Form.SetValues | src/hooks/useApi.js:60 | the values are replaced and the touched set is unchanged |
| UseApi.PutLookupAll | src/hooks/useApi.js:56-58 | after `{...o, [k]: v}`, `k` reads `v` and every other key at once reads as before |
| UseApi.FetchedData | src/hooks/useApi.js:76 | the stored data is `result.data` if truthy, else `result` if truthy, else `[]`; never falsy |
| UseApi.Fetcher.constructor | src/hooks/useApi.js:67-69 | a fetcher starts with `[]`, not loading and no error |
| UseApi.Fetcher.Fetch | src/hooks/useApi.js:71-84 | ends not loading; a success stores the unwrapped data and clears the error; a failure keeps the data and stores the message ("Failed to load data" fallback) |
| AuthSlice.RejectionPayload | src/store/slices/authSlice.js:18 | a failed login rejects with a truthy message: the server's, else the error's, else "Login failed" |
| AuthSlice.LoginSettles | src/store/slices/authSlice.js:9-19 | the thunk fulfils with the reply exactly when the call succeeded, the reply is not `null`/`undefined`, and it has no token or has `admin` or `user`; otherwise it rejects, and a reply that throws rejects with the thrown error's own message |
| AuthSlice.LoggedInUser | src/store/slices/authSlice.js:78 | the stored user is `admin` if truthy, else `user` if truthy, else `{ username }`; never falsy |
| AuthSlice.Auth.constructor | src/store/slices/authSlice.js:38-47 | authenticated exactly when a non-empty token is saved; the user is the parsed saved user only when one is saved; not loading and no error |
| AuthSlice.Auth.ClearError | src/store/slices/authSlice.js:55-57 | only the error changes, to `null` |
| AuthSlice.Auth.SetCredentials | src/store/slices/authSlice.js:59-66 | a `null` or `undefined` payload throws and leaves the state as it was; otherwise token and user come from the payload and the slice is authenticated, with loading and error unchanged |
| AuthSlice.Auth.LoginPending | src/store/slices/authSlice.js:71-74 | loading starts and the error clears; the session is unchanged |
| AuthSlice.Auth.LoginFulfilled | src/store/slices/authSlice.js:75-81 | the whole state is the payload's token and user, authenticated, not loading, no error |
| AuthSlice.Auth.LoginRejected | src/store/slices/authSlice.js:82-86 | loading ends, the error is the payload and the slice is not authenticated; token and user are kept |
| AuthSlice.Auth.LogoutFulfilled | src/store/slices/authSlice.js:90-96 | the whole state is cleared |
| AuthSlice.Auth.Login | src/store/slices/authSlice.js:71-86 | after one login dispatch the slice is not loading and is authenticated exactly when the thunk fulfilled; a rejection keeps the old token and user and leaves a truthy error |
| RecordForm.FindField | src/components/GenericCrudPage.jsx:34-35 | `find` returns a schema field with that key, or none when no field has it |
| RecordForm.LanguageGroup | src/components/GenericCrudPage.jsx:33-36 | the group is headed by the `_uz` field, with its base key and required flag, and holds an `_oz`/`_ru` sibling exactly when the schema has a field with that key |
| RecordForm.Advance | src/components/GenericCrudPage.jsx:36-40 | at a `_uz` field the index moves past it and one further position for each of its `_oz` and `_ru` keys that some field anywhere in the schema has; at any other field it moves by one |
| RecordForm.BuildGroups | src/components/GenericCrudPage.jsx:25-44 | the grouping loop produces exactly the groups `GroupFields` describes |
| RecordForm.GroupFields | src/components/GenericCrudPage.jsx:25-44 | every group the loop as written produces is well formed: a single is an unsuffixed schema field, a language group is headed by a `_uz` schema field with matching siblings |
| RecordForm.GroupsWellFormed | src/components/GenericCrudPage.jsx:30-42 | a single group is a schema field without a language suffix; a language group is headed by a schema `_uz` field, carries its label without ` (UZ)` and its required flag, and its siblings are the schema's `_oz`/`_ru` fields of the same base |
| RecordForm.IntendedCoversSchema | src/components/GenericCrudPage.jsx:25-44 | the corrected grouping shows every field without a language suffix exactly once and heads one group with every `_uz` field, both in schema order |
| RecordForm.GroupFieldsIntended | src/components/GenericCrudPage.jsx:25-44 | the corrected grouping's single fields are the unsuffixed fields and its group heads the `_uz` fields, both in schema order |
| RecordForm.IntendedSkips | src/components/GenericCrudPage.jsx:38-39 | skipping over `_oz`/`_ru` fields does not change the corrected grouping |
| RecordForm.AsWrittenMatchesIntended | src/components/GenericCrudPage.jsx:36-37 | when the positions the loop jumps over after each `_uz` field are `_oz`/`_ru` fields, the loop as written groups as intended |
| RecordForm.SplitSiblingsJump | src/components/GenericCrudPage.jsx:36-37 | in `[title_uz, date, title_ru]` the loop jumps from `title_uz` straight to `title_ru` |
| RecordForm.SplitSiblingsAsWritten | src/components/GenericCrudPage.jsx:36-37 | so the loop as written renders just the one language group for that schema |
| RecordForm.SplitSiblingsIntended | src/components/GenericCrudPage.jsx:36-37 | grouping siblings where they stand still renders `date` as a single field |
| RecordForm.SkippedFieldExample | src/components/GenericCrudPage.jsx:36-37 | for `[title_uz, date, title_ru]` the loop as written shows no single field, while `date` should be shown |
| GenericCrud.FirstTruthyKey | src/components/GenericCrudPage.jsx:14 | the first of the keys under which the object has a truthy property, or none |
| GenericCrud.FirstStringAt | src/components/GenericCrudPage.jsx:14 | `Object.values(field).find(v => typeof v === 'string')` as the first string position, or none |
| GenericCrud.GetValue | src/components/GenericCrudPage.jsx:14 | a truthy property read is one of the object's own values |
| GenericCrud.GetText | src/components/GenericCrudPage.jsx:8-16 | the cell text is never empty: the dash for `null`/`undefined`/`''`, Yes/No for booleans, the decimal form of a number, a string as is, and for an object one of its own values or the dash |
| GenericCrud.ObjectText | src/components/GenericCrudPage.jsx:13-14 | the text of an object is never empty: one of its own values, or the dash |
| GenericCrud.GetTextLanguageOrder | src/components/GenericCrudPage.jsx:13-14 | an object shows its first truthy property among the requested language, uz, ru, oz, en |
| GenericCrud.GetTextFirstString | src/components/GenericCrudPage.jsx:14 | an object without those shows its first string value, or the dash when that is empty |
| GenericCrud.GetTextNoString | src/components/GenericCrudPage.jsx:14 | an object with no truthy language property and no string value shows the dash |
| GenericCrud.GetId | src/components/GenericCrudPage.jsx:21 | a record's id is `_id` when truthy, else `id` |
| GenericCrud.UnwrapRecords | src/components/GenericCrudPage.jsx:172-173 | the records are the first non-nullish of `data.data`, `data.items`, `data.result`, `data`, when it is an array, else none; an array response is the record list itself |
| GenericCrud.RemoveById | src/components/GenericCrudPage.jsx:289 | filtering never makes the list longer |
| GenericCrud.RemoveByIdMembers | src/components/GenericCrudPage.jsx:289 | a record stays exactly when it was there and its id differs from the deleted one |
| GenericCrud.RemoveByIdConcat | src/components/GenericCrudPage.jsx:289 | the filter works piecewise, so the remaining records keep their order |
| GenericCrud.RemoveByIdUnmatched | src/components/GenericCrudPage.jsx:289 | deleting an id no record has leaves the list unchanged |
| GenericCrud.FileValues | src/components/GenericCrudPage.jsx:199 | `Array.from(files)` keeps every file in order |
| GenericCrud.FormChangeNested | src/components/GenericCrudPage.jsx:189-195 | a change to `parent.child` sets `child` inside `parent`, keeps `parent`'s other properties and every other top-level value |
| GenericCrud.FormChangeFlat | src/components/GenericCrudPage.jsx:198-205 | an undotted change sets only its name: all files for a multi-file input, else `checked`, the first file or the value |
| GenericCrud.PartsContents | src/components/GenericCrudPage.jsx:215-222 | a multipart body holds exactly the properties that are neither `undefined` nor `''`, each array element as its own part under the array's key |
| GenericCrud.AppendParts | src/components/GenericCrudPage.jsx:215-222 | the loop over one form value appends exactly that value's multipart parts: none for `undefined` or `''`, each array element under the same key, anything else once |
| GenericCrud.BuildPayload | src/components/GenericCrudPage.jsx:208-226 | the body is multipart exactly when some value is a file or an array and none is a plain object; otherwise it is the form values as JSON |
| GenericCrud.SeedValue | src/components/GenericCrudPage.jsx:251-259 | a seeded value is never nullish: nested fields keep an object or start from empty translations; other fields show an object through `getText`, `null`/`undefined` as `''`, anything else as it is |
| GenericCrud.EditSeedKeys | src/components/GenericCrudPage.jsx:248-263 | the edit form holds exactly the keys of the schema's non-file fields |
| GenericCrud.EditSeedLookup | src/components/GenericCrudPage.jsx:248-263 | with distinct keys, each non-file field starts from its seed value |
| GenericCrud.NonFile | src/components/GenericCrudPage.jsx:302 | the column candidates are exactly the schema's fields that are not file or multi-file |
| GenericCrud.PreferredAt | src/components/GenericCrudPage.jsx:304-307 | the first candidate whose key starts with title/name/fullName or ends with `_uz`, or none |
| GenericCrud.PrimaryFirst | src/components/GenericCrudPage.jsx:304-309 | the primary comes first, then the non-file fields before and after it in schema order with only the primary's position left out, four columns at most |
| GenericCrud.DisplayFields | src/components/GenericCrudPage.jsx:301-310 | at most four columns, as many as there are non-file fields; all are non-file schema fields; the first is the first preferred field, else the first non-file field, and the rest are the other non-file fields in schema order |
| GenericCrud.CrudController.constructor | src/components/GenericCrudPage.jsx:156-164 | a page starts with no records, dialogs closed, an empty form and no pending operation |
| GenericCrud.CrudController.FetchRecords | src/components/GenericCrudPage.jsx:168-179 | a loaded list replaces the records; a failure keeps them; loading ends either way and nothing else changes |
| GenericCrud.CrudController.HandleFormChange | src/components/GenericCrudPage.jsx:185-206 | only the form values change, as `FormChange` says |
| GenericCrud.CrudController.OpenCreate | src/components/GenericCrudPage.jsx:329 | the form is emptied and the create dialog opens |
| GenericCrud.CrudController.HandleCreate | src/components/GenericCrudPage.jsx:228-246 | POSTs the payload to the create endpoint or, without one, the resource endpoint; a success closes the dialog, empties the form and reloads; a failure changes nothing |
| GenericCrud.CrudController.HandleEditOpen | src/components/GenericCrudPage.jsx:248-263 | the form becomes the seed of the record and the record becomes the one edited; nothing else changes |
| GenericCrud.CrudController.HandleUpdate | src/components/GenericCrudPage.jsx:265-282 | PUTs the payload to `endpoint/id` of the edited record; a success closes the editor, empties the form and reloads; a failure changes nothing |
| GenericCrud.CrudController.RequestDelete | src/components/GenericCrudPage.jsx:396 | only the delete target changes |
| GenericCrud.CrudController.HandleDelete | src/components/GenericCrudPage.jsx:284-296 | DELETEs `endpoint/id`; a success drops exactly the records with that id and clears the target; a failure changes nothing |
| ManagePosts.PostText | src/pages/ManagePostsPage.jsx:9-15 | never empty: every falsy value shows the dash, a string shows as is, a number its decimal form, an object one of its own values or the dash |
| ManagePosts.PostTextFirstValue | src/pages/ManagePostsPage.jsx:13 | an object with no truthy language property shows its first value when that is truthy, else the dash; later values are never tried |
| ManagePosts.PostTextLanguageOrder | src/pages/ManagePostsPage.jsx:13 | on an object the first truthy language property is shown, as on the generic page |
| ManagePosts.PostTextVersusGeneric | src/pages/ManagePostsPage.jsx:10-14 | both variants agree on non-empty strings; `0` and `false` show the dash here but `0` and `No` on the generic page |
| ManagePosts.FirstArrayAt | src/pages/ManagePostsPage.jsx:33 | the first array among the values, or none |
| ManagePosts.FirstArrayValue | src/pages/ManagePostsPage.jsx:33 | the first array-valued property, or `undefined` exactly when no value is an array |
| ManagePosts.UnwrapPosts | src/pages/ManagePostsPage.jsx:30-36 | unwrapping throws exactly for a `null` response; otherwise the first non-nullish of `data`, `items`, `result`, `news`, then an object's first array value, then the response, gives the posts when it is an array; a response that is neither an object nor `null` is itself the posts when it is an array and gives `[]` otherwise |
| ManagePosts.EditValuesFor | src/pages/ManagePostsPage.jsx:63-68 | the editor holds title, content, category and published; the three texts are the page's `getText` of the post's title, content and category and are never empty; published defaults to true only when nullish |
| ManagePosts.MergeEdits | src/pages/ManagePostsPage.jsx:75-79 | the list keeps its length; posts with the edited id become `{...post, ...edits}`, the others are unchanged |
| ManagePosts.MergedPost | src/pages/ManagePostsPage.jsx:77 | an edited post reads each edited property from the edits and every other from the post |
| ManagePosts.PostsManager.constructor | src/pages/ManagePostsPage.jsx:18-24 | the page starts with no posts and no dialog, and two idle, separate API calls |
| ManagePosts.PostsManager.FetchPosts | src/pages/ManagePostsPage.jsx:26-43 | a response that unwraps replaces the posts; a failure or a throw keeps them; loading ends |
| ManagePosts.PostsManager.RequestDelete | src/pages/ManagePostsPage.jsx:178 | only the delete target changes |
| ManagePosts.PostsManager.HandleDelete | src/pages/ManagePostsPage.jsx:49-59 | without a target nothing happens; otherwise DELETEs the post's URL, a success drops every post with its id, and the dialog closes either way |
| ManagePosts.PostUrl | src/services/api.js:88 | a post's URL is `/api/news/` followed by the id as a string |
| ManagePosts.PostsManager.HandleEditOpen | src/pages/ManagePostsPage.jsx:61-69 | the editor opens on the post with `EditValuesFor(post)` |
| ManagePosts.PostsManager.SetEditField | src/pages/ManagePostsPage.jsx:232 | the title or content input sets only that value |
| ManagePosts.PostsManager.ToggleEditPublished | src/pages/ManagePostsPage.jsx:247 | `published` is negated and every other edit value is unchanged |
| ManagePosts.PostsManager.HandleEditSave | src/pages/ManagePostsPage.jsx:71-85 | without an edited post nothing happens; otherwise PUTs the values as JSON; a success merges them into every post with that id and closes the editor; a failure changes nothing |
| PostNews.CheckPost | src/pages/PostNewsPage.jsx:63-65 | "Title is required" exactly for a blank title; "Content is required" exactly for a non-blank title with blank content |
| PostNews.CheckPostAccepts | src/pages/PostNewsPage.jsx:63-65 | a post is accepted exactly when the title has a non-space character and the trimmed content has at least 20 characters |
| PostNews.NonNullParts | src/pages/PostNewsPage.jsx:71-75 | the multipart body holds exactly the values that are not `null`/`undefined` |
| PostNews.NonNullPartsConcat | src/pages/PostNewsPage.jsx:71-75 | the multipart parts are taken piecewise, so they keep the order of the form's properties |
| PostNews.JsonPost | src/pages/PostNewsPage.jsx:78-84 | the JSON body has exactly title, content, category, language and published, copied from the form, with an empty category sent as `undefined` |
| PostNews.BuildPostPayload | src/pages/PostNewsPage.jsx:68-85 | the body is multipart exactly when an image is attached, JSON otherwise |
| PostNews.PostPayload | src/pages/PostNewsPage.jsx:67-85 | the payload is multipart exactly when an image is attached, holding exactly the values that are not `null`/`undefined`; otherwise a JSON body with exactly the five post properties |
| PostNews.Composer.constructor | src/pages/PostNewsPage.jsx:31-35 | the composer starts from the initial values with no banners |
| PostNews.Composer.HandleImageChange | src/pages/PostNewsPage.jsx:39-50 | no file or a file over 5 MiB changes nothing; otherwise only `image` changes, to the file |
| PostNews.Composer.RemoveImage | src/pages/PostNewsPage.jsx:213 | only `image` changes, to `null` |
| PostNews.Composer.TogglePublished | src/pages/PostNewsPage.jsx:249 | `published` is negated and every other value is unchanged |
| PostNews.Composer.Publish | src/pages/PostNewsPage.jsx:67-98 | a validated post is POSTed to `/api/news` with its payload; a success shows the confirmation and resets the form, a failure keeps the values and shows the error |
| PostNews.Composer.HandleSubmit | src/pages/PostNewsPage.jsx:57-99 | an invalid post sends nothing and only clears the banners; a valid one POSTs its payload to `/api/news`; a success shows the confirmation and resets the form; a failure keeps the values and shows the error |
| PostNews.Composer.ResetAll | src/pages/PostNewsPage.jsx:297 | the form returns to the initial values and both banners clear |
| ApiExplorer.ResolvedPathUntemplated | src/pages/ApiExplorerPage.jsx:193-195 | a path without `{id}` is sent as it is, with or without a parameter |
| ApiExplorer.ResolvedPathWithParam | src/pages/ApiExplorerPage.jsx:193-195 | with a `$`-free parameter, the first `{id}` becomes the parameter and nothing else changes |
| ApiExplorer.ResolvedPathNoParam | src/pages/ApiExplorerPage.jsx:193-195 | without a parameter the first `/{id}` is cut out and, when no `{id}` remains after the cut, nothing else changes |
| ApiExplorer.MatchesIff | src/pages/ApiExplorerPage.jsx:199-202 | a query matches exactly when it is empty or occurs, lower-cased, in the lower-cased path, description or method |
| ApiExplorer.FilterItems | src/pages/ApiExplorerPage.jsx:198-203 | the items kept are exactly those matching the query, case-insensitively, in path, description or method |
| ApiExplorer.FilterItemsConcat | src/pages/ApiExplorerPage.jsx:198-203 | item filtering works piecewise, so the kept items stay in catalogue order |
| ApiExplorer.FilterGroups | src/pages/ApiExplorerPage.jsx:197-205 | every kept group is a catalogue group with its items filtered and non-empty, and every catalogue group with a matching item is kept |
| ApiExplorer.FilterGroupsConcat | src/pages/ApiExplorerPage.jsx:197-205 | group filtering works piecewise, so the kept groups stay in catalogue order |
| ApiExplorer.FilterItemsEmptyQuery | src/pages/ApiExplorerPage.jsx:199 | an empty search keeps every item |
| ApiExplorer.FilterGroupsEmptyQuery | src/pages/ApiExplorerPage.jsx:197-205 | an empty search keeps groups that all have items as they are |
| ApiExplorer.FilterGroupsItems | src/pages/ApiExplorerPage.jsx:197-205 | the filtered catalogue lists exactly the catalogue's items that match |
| ApiExplorer.CatalogueGroupsNonEmpty | src/pages/ApiExplorerPage.jsx:8-145 | every catalogue group has at least one endpoint |
| ApiExplorer.FilteredCatalogueEmptyQuery | src/pages/ApiExplorerPage.jsx:197-205 | with an empty search the whole catalogue is shown |
| ApiExplorer.BodyTextFor | src/pages/ApiExplorerPage.jsx:214-221 | only POST and PUT get a body, and only when a sample exists for the path without `/{id}`; it is that sample stringified |
| ApiExplorer.SampleFor | src/pages/ApiExplorerPage.jsx:216-217 | the sample looked up is `undefined` or one of the catalogue's sample bodies |
| ApiExplorer.SampleForTemplated | src/pages/ApiExplorerPage.jsx:216-217 | for a path whose first `/{id}` is at p, the sample is the table entry keyed by the path with those five characters cut out |
| ApiExplorer.SampleForUntemplated | src/pages/ApiExplorerPage.jsx:216-217 | for a path without `/{id}`, the sample is the table entry keyed by the path itself |
| ApiExplorer.SampleForIdPath | src/pages/ApiExplorerPage.jsx:216-217 | for a path `base + "/{id}"` with no `{` in base, the sample is the entry keyed by base |
| ApiExplorer.SampleForNewsPut | src/pages/ApiExplorerPage.jsx:216-217 | `PUT /api/news/{id}` is prefilled with the `/api/news` sample |
| ApiExplorer.SampleForLeaderPut | src/pages/ApiExplorerPage.jsx:216-217 | `PUT /api/leader/{id}` gets no sample, since the table has no `/api/leader` key |
| ApiExplorer.StatusColor | src/pages/ApiExplorerPage.jsx:264 | no colour exactly without a status (or 0); green below 300, amber from 300 to 399, red from 400 |
| ApiExplorer.StatusBadge | src/pages/ApiExplorerPage.jsx:398-402 | the rendered badge appears exactly for a truthy status; green with ✓ below 300, red with ✗ from 300 on |
| ApiExplorer.StatusBadgeVersusColor | src/pages/ApiExplorerPage.jsx:264 | the badge and the `statusColor` const agree on when a status shows and on green, but a 3xx reply is a red ✗ on the page where the const says amber |
| ApiExplorer.RequestBody | src/pages/ApiExplorerPage.jsx:235-250 | a body is sent exactly when the text is non-blank and parses to a truthy document, and it is that document |
| ApiExplorer.Authorization | src/pages/ApiExplorerPage.jsx:232 | the `Authorization` header is present exactly when there is a token, as `Bearer <token>` |
| ApiExplorer.StatusOf | src/pages/ApiExplorerPage.jsx:251-252 | a status is shown exactly when the server replied, also when its body could not then be read, and it is the reply's status |
| ApiExplorer.ReplyOf | src/pages/ApiExplorerPage.jsx:253-257 | a reply is shown parsed when it is JSON, as raw text otherwise; a network error, or a body that cannot be read after the status arrived, shows `{ error: message }` |
| ApiExplorer.AllExpanded | src/pages/ApiExplorerPage.jsx:190 | one `true` flag per group, in catalogue order |
| ApiExplorer.Explorer.constructor | src/pages/ApiExplorerPage.jsx:181-191 | the first catalogue endpoint (admin login) is selected, every group expanded, nothing sent yet |
| ApiExplorer.Explorer.ToggleGroup | src/pages/ApiExplorerPage.jsx:207-208 | the group's flag is negated and every other flag is unchanged |
| ApiExplorer.Explorer.HandleSelect | src/pages/ApiExplorerPage.jsx:210-222 | the endpoint is selected, the response and parameter cleared, and the body filled with its sample text |
| ApiExplorer.Explorer.HandleSend | src/pages/ApiExplorerPage.jsx:224-262 | a non-blank body that does not parse sends nothing and shows the invalid-JSON error; otherwise the request goes to the resolved path with the bearer header and parsed body, and the status and parsed (or raw) reply are shown, the status staying when the body cannot be read; selection, body and parameter are kept |

## Left out

- Numbers are integers: floating point, `NaN` and number formatting beyond integer `String(n)` are not modelled.
- Strings are sequences of code points. `length` counts UTF-16 code units in JavaScript, so the 20-character content minimum can differ for text outside the Basic Multilingual Plane.
- Strings.ToLower: lower-cases ASCII letters only. JavaScript's `toLowerCase` also folds other scripts, so the explorer search is modelled case-insensitive for ASCII only.
- Property reads on arrays and strings (`length`, indices) are not modelled. `Json.Get` gives `undefined` for anything but a plain object, which is all the modelled code reads.
- Object identity: `!==`/`===` on record ids compare values structurally in the model, by reference in JavaScript. Ids are strings or numbers in practice. `f !== primary` is modelled by position: exactly the primary's position is dropped, which is what reference inequality does as long as the schema does not list one field object twice.
- Property order: JavaScript lists integer-like keys first. The model keeps insertion order throughout.
- JSON serialisation: `JSON.stringify` drops `undefined` properties, such as an empty category in the composer's JSON body; the model keeps them as `undefined` entries. `JSON.parse`/`JSON.stringify` are parameters of the explorer.
- Multipart bodies: `FormData` stringifies non-file values; the model keeps the values themselves as parts.
- Toasts, the image preview (`FileReader`), the content character counter, response timing (`Date.now`), the `DEV` base URL (a parameter), rendering, and the modal cancel/close buttons are presentation only.
- localStorage writes in `loginAdmin`, `logoutAdmin` and `setCredentials` are I/O. The saved session is read once, as constructor parameters of `AuthSlice.Auth`.
- The localStorage writes of `loginAdmin` are I/O. The `ReferenceError` from the undeclared `username` inside them is modelled, because it makes the thunk reject.
- ApiExplorer.StatusColor: the const is computed but never read; the page renders `StatusBadge`, which has only two bands, so the amber band is never shown.
- AuthSlice.LoginSettles: the messages of the errors thrown inside `loginAdmin` (`Cannot read properties of null (reading 'token')`, `username is not defined`) use V8's wording; other engines word them differently.
- The selectors of the auth slice are plain field reads of the state.
- Concurrency: each handler runs as one atomic step with its call's outcome given. Overlapping requests and the un-awaited reload after a create or update are not modelled; the reload is applied before the handler returns.
- `useFetch`'s parameter merging (`{...params, ...overrideParams}`) only forms the request, which is not modelled.
- PostNews.CheckPost: a non-string title or content makes `trim` throw. This is modelled as the `Throws` verdict, which sends nothing and shows no message.
- Form-field rendering (`renderInput`) and the edit and create dialogs' markup are view code.

## Findings

| source | as written | input that shows it | evidently intended | confidence | as-written member | corrected member |
|---|---|---|---|---|---|---|
| src/components/GenericCrudPage.jsx:36-37 | after a `_uz` field the index jumps one position per sibling found anywhere in the schema | fields `[title_uz, date, title_ru]`: the jump from `title_uz` lands on `title_ru`, so `date` is never rendered in the create/edit form | every field without a language suffix is rendered once; siblings are skipped where they stand | high, not executed (every schema in `src/pages/ResourcePages.jsx` keeps siblings right after their `_uz` field, where both agree) | RecordForm.SkippedFieldExample | RecordForm.IntendedCoversSchema |
