# Invitation-code admin dashboard, modelled in Dafny

This project models the logic of an internal admin dashboard for an
application backend. The dashboard is mostly presentation and proxy code; what
it decides for itself is a set of small, sequential rules, and those are what
this project models and proves:

- **the invitation-code cache** (`InvitationStore`, and `InvitationCodesView`
  for the older page that keeps the same cache in component state): server
  records mapped into `InvitationCode`s, a one-way freeze, binding a code to a
  user, and the case-insensitive filter by code (`Types` holds the record
  shapes and the pure list operations both share);
- **the note overlay** (`Notes` over `Kv`): free-text notes kept in a
  key/value store under `"invitation:note:" + codeId`, where saving a blank
  note deletes the key, so a stored note is never blank;
- **the relational proxy routes** (`QueryRoute`, `SearchRoute`, `UpdateRoute`,
  `BlacklistRoute` over `Db`): the validation of each request, the status it
  maps to (400, 404, 500 or success), the one statement it sends, and what
  that does to the posts table or the blacklist set (for the raw query
  route, whose SELECT check is only a prefix test, whatever the database
  made of the text); the connection taken from the pool is released on
  every path;
- **the client helpers**: the identity and content-type headers and the error
  message precedence of the user-service client (`Api`), the user-id parsing
  and merging of the in-app message form (`MessageForm`), paging, appending
  and row toggling on the post browser (`DatabasePage`), and the lookup and
  VIP update rules of the membership page (`UsersPage`).

The JavaScript semantics the code leans on are written out: truthiness,
`typeof`, `${x}`, `Number(x)`, `parseInt`, `trim` (the full ECMAScript white
space set), ASCII `toLowerCase`/`toUpperCase`, `includes`, `replace` with a
string pattern, `split` on `/\r?\n/` and `/[\n,]+/`, and `join` (`Text`,
`Json`, `MessageForm`).

Remote services are inputs. What a call to the user service, a `fetch`, or a
database statement answers is a parameter of the handler that makes it (a
`Result`, an `Outcome`, a `Fetched`, a `QueryResult`). A driver error is a
`Fault`, thrown either at connect or at the k-th statement. The clock is an
input too: today's date for a binding, and the days left on a membership.

The code departs from the dashboard's intended design in a few places, and
the model follows the code. `InvitationCode` has no `note` field (src/lib/types.ts:1-10). The store
neither merges notes into its records nor defines an `updateNote` action,
though the table row calls one (src/components/invitation/components/invitation-table-row.tsx:36).
The store's bind sets the user id the service answers with, not a client
value, and it names no caller, so the service sees the built-in identity
`"123"`.

## Model

| member | source | states |
|---|---|---|
| Types.ToInvitationCode | src/store/invitation-store.ts:97-110 | `id == code == promotionCode`, `frozen == !isActive`, count and level copied, no redeemers, no bound user exactly when `linkedUser` is empty, no binding date exactly when `linkedTime` is empty and otherwise the date of `linkedTime`, and failure exactly when a non-empty link time is not a date |
| Types.MapCodes | src/store/invitation-store.ts:96-111 | every record is mapped, in order and with the same length, or the whole mapping fails exactly when one record fails |
| Types.MappedIdsUnique | src/store/invitation-store.ts:97-110 | distinct service codes give a cache with distinct identifiers |
| Types.Freeze | src/store/invitation-store.ts:123-127 | same length and order; records with the id get `frozen := true` and nothing else, all others are identical |
| Types.Bind | src/store/invitation-store.ts:143-153 | same length and order; selected records get the user id and binding date and nothing else, all others are identical |
| Types.FreezeIdempotent | src/store/invitation-store.ts:120-128 | freezing twice is freezing once |
| Types.UpdatesKeepIdentity | src/store/invitation-store.ts:123-153 | freeze and bind never unfreeze a code, keep every id and code, and so keep ids distinct |
| Types.FilterSpec | src/store/invitation-store.ts:194 | the filter is an order-preserving subsequence that keeps every copy of each matching record and nothing else (equal multiplicities), and the whole list when all match |
| Types.FilterIdempotent | src/store/invitation-store.ts:194 | filtering twice with one query is filtering once |
| Types.FilteredCodes | src/store/invitation-store.ts:189-195 | a blank query gives the list unchanged; otherwise an order-preserving subsequence holding every copy of each code whose lower-cased code contains the lower-cased, untrimmed query, and no other code |
| InvitationStore.Store.constructor | src/store/invitation-store.ts:62-76 | the initial state: no codes, loading, nothing selected, dialogs closed, no popover |
| InvitationStore.Store.SetCodes | src/store/invitation-store.ts:79 | replaces the codes only |
| InvitationStore.Store.SetSearchQuery | src/store/invitation-store.ts:80 | replaces the query only |
| InvitationStore.Store.SetSelectedCode | src/store/invitation-store.ts:81 | replaces the selected code only |
| InvitationStore.Store.SetSelectedUser | src/store/invitation-store.ts:82 | replaces the selected user only |
| InvitationStore.Store.SetIsViewUsersOpen | src/store/invitation-store.ts:83 | replaces that flag only |
| InvitationStore.Store.SetIsBindUserOpen | src/store/invitation-store.ts:84 | replaces that flag only |
| InvitationStore.Store.SetIsUserInfoOpen | src/store/invitation-store.ts:85 | replaces that flag only |
| InvitationStore.Store.SetBindUserEmail | src/store/invitation-store.ts:86 | replaces the e-mail only |
| InvitationStore.Store.SetPromotedUsers | src/store/invitation-store.ts:87 | replaces the promoted users only |
| InvitationStore.Store.SetPopoverUserId | src/store/invitation-store.ts:88 | replaces the popover's user id only |
| InvitationStore.Store.SetPopoverUserInfo | src/store/invitation-store.ts:89 | replaces the popover's profile only |
| InvitationStore.Store.SetIsLoadingPopover | src/store/invitation-store.ts:90 | replaces that flag only |
| InvitationStore.Store.FetchCodes | src/store/invitation-store.ts:93-118 | on success the cache is the mapped list; a rejected call or a bad date leaves the cache as it was and is rethrown; loading is over in every case; the UI fields are untouched |
| InvitationStore.Store.DeactivateCode | src/store/invitation-store.ts:120-132 | after acceptance the cache is `Freeze(old, id)`; a rejection leaves it unchanged and is rethrown |
| InvitationStore.Store.BindUser | src/store/invitation-store.ts:134-158 | after acceptance the records with this code are bound to the service's `userId` on today's date; a rejection leaves the cache unchanged and is rethrown; the call carries no caller id |
| InvitationStore.Store.FetchPromotedUsers | src/store/invitation-store.ts:160-170 | the `userInfo` of each entry in order, or `[]` on failure (rethrown) |
| InvitationStore.Store.FetchUserProfile | src/store/invitation-store.ts:172-186 | `""` and `"N/A"` change nothing and make no call; on failure the popover's user is cleared and the error rethrown; loading is over afterwards |
| InvitationStore.Store.GetFilteredCodes | src/store/invitation-store.ts:189-195 | over the store's own codes and query: a blank query gives all codes; otherwise the matching codes in order, each as many times as it occurs |
| InvitationStore.DeactivateTwice | src/store/invitation-store.ts:120-128 | two deactivations of one id leave only that id's records changed, and only in `frozen` |
| InvitationStore.StoreBindIdentifiesAsDefault | src/lib/api.ts:90-101 | the store's bind reaches the service as the built-in user `"123"` |
| InvitationCodesView.View.constructor | src/components/invitation-codes.tsx:62-70 | the page's initial state |
| InvitationCodesView.View.FetchCodes | src/components/invitation-codes.tsx:72-99 | the mapped list on success, the old list on any failure, loading over afterwards |
| InvitationCodesView.View.HandleDeactivateCode | src/components/invitation-codes.tsx:105-125 | after acceptance `Freeze(old, id)`; on failure no change |
| InvitationCodesView.View.HandleOpenBindDialog | src/components/invitation-codes.tsx:127-131 | selects the code and pre-fills its bound user or `""` |
| InvitationCodesView.View.HandleBindUser | src/components/invitation-codes.tsx:133-175 | no selection or a blank trimmed input makes no request and changes nothing; on acceptance the record with the selected id is bound to the trimmed input, and the dialog is closed and cleared |
| InvitationCodesView.View.HandleOpenViewUsersSheet | src/components/invitation-codes.tsx:177-193 | the promoted users' profiles in order, or `[]` after a failure |
| InvitationCodesView.View.HandleViewUserInfo | src/components/invitation-codes.tsx:195-198 | selects the user and opens the sheet |
| InvitationCodesView.View.OnFreezeSwitch | src/components/invitation-codes.tsx:256-265 | switching on deactivates the code; switching off sends nothing and changes nothing; no code is ever unfrozen |
| InvitationCodesView.ViewBindIdentifiesAsBoundUser | src/components/invitation-codes.tsx:148 | the page's bind reaches the service as the user being bound |
| Notes.BuildNoteKey | src/app/api/notes/route.ts:8-10 | the key starts with `"invitation:note:"` and the rest of it is the code id |
| Notes.ExtractBuild | src/app/api/notes/route.ts:5-15 | extracting the id from a built key gives the id back |
| Notes.BuildExtract | src/app/api/notes/route.ts:5-15 | every prefixed key is the built key of the id extracted from it |
| Notes.ActionFor | src/app/api/notes/route.ts:65-76 | a falsy or blank string note removes, a non-blank string is saved as given, any other truthy value is refused |
| Notes.Get | src/app/api/notes/route.ts:18-38 | with a code id, the stored note or `""`; without one, exactly the ids whose note key holds a non-empty value, each with its value |
| Notes.PrefixPatternSelectsNotes | src/app/api/notes/route.ts:33-34 | `invitation:note:*` matches exactly the note keys, and the extracted ids tell them apart |
| Notes.Post | src/app/api/notes/route.ts:52-82 | a falsy code id is a 400 with no change; a blank note deletes the key and echoes `""`; a non-blank note is stored untrimmed and echoed; the store never gains a blank value |
| Notes.Delete | src/app/api/notes/route.ts:96-114 | a missing code id is a 400 with no change; otherwise exactly that key is removed |
| Notes.SaveThenRead | src/app/api/notes/route.ts:76-82 | a saved note reads back, and a second save overwrites it |
| Notes.SaveAndRead | src/app/api/notes/route.ts:23-30 | one non-blank save followed by a read returns the note |
| Notes.BlankSaveDeletes | src/app/api/notes/route.ts:65-73 | for every note that deletes (blank, `""`, `null`, `undefined`): the save answers the removal, removes exactly the key, the read after it answers `""`, and a delete after it answers success and changes nothing |
| Kv.PrefixPattern | src/lib/redis.ts:64 | the glob `p*` of a literal `p` matches exactly the keys starting with `p` |
| Kv.KvStore.constructor | src/lib/redis.ts:6-20 | an empty store |
| Kv.KvStore.MatchingKeys | src/lib/redis.ts:64 | exactly the present keys the pattern matches |
| Kv.KvStore.Save | src/lib/redis.ts:29-32 | the key now holds the value and every other key is unchanged |
| Kv.KvStore.Read | src/lib/redis.ts:39-42 | the stored value, or none exactly when the key is absent |
| Kv.KvStore.Remove | src/lib/redis.ts:48-51 | the key is absent and every other key is unchanged; removing an absent key changes nothing |
| Kv.KvStore.Exists | src/lib/redis.ts:88-92 | true exactly when the key is present |
| Kv.KvStore.ReadByPattern | src/lib/redis.ts:59-81 | `{}` when nothing matches; otherwise each renamed matching key with a non-empty value, and nothing else; empty values are skipped |
| Kv.KvStore.RemoveByPattern | src/lib/redis.ts:98-105 | every matching key is deleted, and nothing else changes |
| Db.Columns | src/app/api/db/query/route.ts:31-34 | one `(name, dataTypeID)` entry per field, in field order |
| Db.RowsResponse | src/app/api/db/query/route.ts:28-36 | a success carrying the rows, the columns of `Columns`, and the row count |
| Db.Database.constructor | src/lib/db.ts:1-31 | the tables as given, no connection checked out or taken, no statement sent |
| Db.Database.Connect | src/app/api/db/query/route.ts:24 | takes a connection, counted as checked out and as taken, unless the fault is at connect |
| Db.Database.Release | src/app/api/db/query/route.ts:38 | gives the connection back; the count of connections taken stays |
| Db.Database.Send | src/app/api/db/search/route.ts:19-22 | a route's own parameterised statement: appended to the log; the table change of an UPDATE or INSERT is made by the route that sent it |
| Db.Database.Execute | src/app/api/db/query/route.ts:26 | raw text: appended to the log, and the tables become whatever the database left them as, an input |
| QueryRoute.Vet | src/app/api/db/query/route.ts:8-22 | a missing or non-string query is a 400; one whose trimmed, upper-cased text does not start with `SELECT` is a different 400; the rest may run |
| QueryRoute.SafelistIgnoresCaseAndPadding | src/app/api/db/query/route.ts:16-17 | the safelist gives the same answer after leading white space is added or the query is lower-cased |
| QueryRoute.SafelistReadsFirstWordOnly | src/app/api/db/query/route.ts:16-17 | any text after a leading `SELECT`, further statements included, passes the safelist |
| QueryRoute.LowerTrimCommute | src/app/api/db/query/route.ts:16 | trimming and lower-casing commute |
| QueryRoute.Post | src/app/api/db/query/route.ts:4-50 | a refused query or a failed connect executes nothing and leaves the tables; an accepted one is sent as the original string and the tables then hold what the database made of it, even on an error; one result is answered with `RowsResponse`; an array of results (several statements) is the 500 of `result.fields.map` on undefined; a thrown error is a 500; a connection is taken exactly when the query is accepted and the connect succeeds, and it is released |
| SearchRoute.OffsetTilesPages | src/app/api/db/search/route.ts:6-18 | an explicit offset wins; page 1 starts at 0; each page starts where the last ended; the defaults are page 1 and limit 50 |
| SearchRoute.OffsetCoercesPage | src/app/api/db/search/route.ts:18 | a numeral-string page counts as its number; an object page gives `NaN` |
| SearchRoute.OffsetOfArrayPage | src/app/api/db/search/route.ts:18 | a page `[p]` counts as `p` and a page `[]` as 0, as `Number` converts arrays |
| Json.ArrayNumber | src/app/api/db/search/route.ts:18 | `Number([])` is 0, and `Number([x])` is `Number(x)` for a number or a string `x` |
| SearchRoute.Vet | src/app/api/db/search/route.ts:8-13 | exactly an empty or non-string search text is a 400 |
| SearchRoute.SearchStatement | src/app/api/db/search/route.ts:19-22 | the parameters are exactly `["%" + text + "%", limit, offset]` against fixed SQL |
| SearchRoute.Post | src/app/api/db/search/route.ts:4-46 | a 400 takes no connection and sends no statement; otherwise one parameterized statement, `RowsResponse` on success, 500 on a thrown error; the connection taken is released |
| UpdateRoute.PostKey | src/app/api/db/update/route.ts:25-28 | the post a bound id addresses: a number as itself and a numeral string as its integer, only within the `integer` range; no post for a blank string, a non-number or a value out of range |
| UpdateRoute.NumeralAddressesSamePost | src/app/api/db/update/route.ts:27 | an id sent as a numeral string addresses the same post as the number; a number addresses its post exactly when it is within the `integer` range |
| UpdateRoute.Vet | src/app/api/db/update/route.ts:8-20 | a null or undefined id is a 400 (0 is accepted); a non-boolean flag is a different 400; the id check wins |
| UpdateRoute.Post | src/app/api/db/update/route.ts:4-54 | only the addressed post's flag changes and the row `(postId, isPublic)` is returned; a missing post is a 404 with no change; an id the database refuses is a 500 carrying the database's refusal, with no change; other errors are 500; a connection is taken only after validation passes, and it is released |
| BlacklistRoute.Vet | src/app/api/db/blacklist/route.ts:8-13 | exactly a non-empty string or a non-zero number is accepted |
| BlacklistRoute.UserKeyAgrees | src/app/api/db/blacklist/route.ts:18-34 | a number and its numeral name the same row, and distinct numbers distinct rows |
| BlacklistRoute.Caught | src/app/api/db/blacklist/route.ts:43-60 | a unique violation (`23505`) is the "already listed" 400, anything else a 500 |
| BlacklistRoute.Post | src/app/api/db/blacklist/route.ts:4-62 | a listed id is a 400 with no insert; otherwise the set grows by exactly that id, which is returned; the set never shrinks; a connection is taken only after validation passes, and it is released |
| BlacklistRoute.AddTwice | src/app/api/db/blacklist/route.ts:18-39 | adding one user twice lists them once and refuses the second request |
| Api.UserIdHeader | src/lib/api.ts:67-71 | the given id when truthy, else `"123"` |
| Api.RequestHeaders | src/lib/api.ts:61-78 | the caller's headers plus `UserId` and `Content-Type`; an existing content type is kept, a missing one becomes JSON; every other header is kept |
| Api.RouteOf | src/lib/api.ts:80-181 | only a bind with a user id and a profile lookup pass an identity; the four writing calls are POSTs |
| Api.IdentitySent | src/lib/api.ts:90-101 | every call but those two, and a bind without a user id, identifies as `"123"` |
| Api.ServerMessage | src/lib/api.ts:54 | a value only when the reply body is an object with a `message` |
| Api.ErrorMessage | src/lib/api.ts:53-57 | the server's message, else the error's own, else "API request failed with status " and the status |
| Api.Settle | src/lib/api.ts:40-58 | a 2xx reply resolves to its body; anything else rejects with `ErrorMessage` |
| Api.ErrorMessagePrecedence | src/lib/api.ts:53-57 | a server message wins; a bare failure names its status, or `undefined` without a reply |
| MessageForm.NonEmptySpec | src/components/notification/in-app-message-form.tsx:66 | the filter keeps the non-empty strings in order, every copy of each, and no empty one |
| MessageForm.CleanIdsSpec | src/components/notification/in-app-message-form.tsx:63-66 | the ids are the trimmed pieces, in order, repeated ids kept as often as they occur, without the empty ones |
| MessageForm.CleanIdsShape | src/components/notification/in-app-message-form.tsx:63-66 | every id is non-empty with no white space at either end |
| MessageForm.ParseFileIds | src/components/notification/in-app-message-form.tsx:63-66 | every id a file yields is non-empty and trimmed |
| MessageForm.LinesIgnoreCarriageReturns | src/components/notification/in-app-message-form.tsx:64 | splitting on `\r?\n` gives the same ids as splitting on `\n` |
| MessageForm.RunsAgree | src/components/notification/in-app-message-form.tsx:98 | splitting on runs of separators gives the same ids as splitting on each one |
| MessageForm.PayloadIds | src/components/notification/in-app-message-form.tsx:96-107 | no ids means no `userIds` (everyone); otherwise exactly the submitted ids, each non-empty and trimmed |
| MessageForm.SubmittedOfEmptyField | src/components/notification/in-app-message-form.tsx:96-101 | an empty field yields no ids |
| MessageForm.BlankField | src/components/notification/in-app-message-form.tsx:96-101 | a blank field yields no ids |
| MessageForm.UploadThenSubmit | src/components/notification/in-app-message-form.tsx:63-101 | after an upload of a file without commas, submitting sends the ids that were there, then exactly the file's ids in file order |
| MessageForm.MergeAfterText | src/components/notification/in-app-message-form.tsx:69-71 | after non-blank text the merge keeps the text's ids and appends the new ones |
| MessageForm.MergeAfterBlank | src/components/notification/in-app-message-form.tsx:69-71 | after blank text the merge yields only the new ids |
| MessageForm.Form.constructor | src/components/notification/in-app-message-form.tsx:37-41 | empty title, content and ids |
| MessageForm.Form.HandleFileUpload | src/components/notification/in-app-message-form.tsx:44-91 | no file, a non-text file, or one yielding no ids leaves the field unchanged; otherwise the field is the merge and the count added is returned |
| MessageForm.Form.OnSubmit | src/components/notification/in-app-message-form.tsx:93-114 | sends type 0 with the title, content and `PayloadIds`; resets the form only after acceptance |
| MessageForm.Form.Reset | src/components/notification/in-app-message-form.tsx:114 | every field back to empty |
| DatabasePage.OffsetTiles | src/app/database/page.tsx:58 | page 1 starts at 0 and each page starts 50 rows after the one before |
| DatabasePage.DefaultQueryAccepted | src/app/database/page.tsx:59 | every default query passes the query route's SELECT safelist |
| DatabasePage.SearchOffsetAgrees | src/app/database/page.tsx:154-165 | the explicit offset the page sends equals what the search route would compute |
| DatabasePage.SearchRequestAccepted | src/app/database/page.tsx:137-161 | a search the page sends always passes the search route's validation |
| DatabasePage.Appended | src/app/database/page.tsx:75-88 | with rows on screen, the old rows then the new ones under the new reply's other fields; otherwise the new reply |
| DatabasePage.AppendedInOrder | src/app/database/page.tsx:75-88 | appending page after page keeps every row in page order |
| DatabasePage.FailedResult | src/app/database/page.tsx:105-121 | a failing reply as it came, or an error result built from the thrown message or "网络错误" |
| DatabasePage.Patch | src/app/database/page.tsx:264-266 | a row whose `post_id` is strictly equal gets the new flag; any other row is unchanged |
| DatabasePage.ToggledRows | src/app/database/page.tsx:263-270 | matching rows show the new value and keep every other column; other rows are unchanged |
| DatabasePage.ToggledIdempotent | src/app/database/page.tsx:264-266 | toggling to a value twice is toggling to it once |
| DatabasePage.SwitchFlipsRow | src/app/database/page.tsx:438-441 | after a successful toggle a row shows the opposite of what it showed |
| DatabasePage.ToggleRequestAccepted | src/app/database/page.tsx:256 | the update route accepts the body a numeric row sends, and addresses that post exactly when the id is within the `integer` range |
| DatabasePage.Page.constructor | src/app/database/page.tsx:38-45 | the initial page state |
| DatabasePage.Page.SetSearchText | src/app/database/page.tsx:335 | replaces the search text |
| DatabasePage.Page.Land | src/app/database/page.tsx:69-129 | rows replace or extend the result, `hasMore` is whether 50 came, page and mode are set; a failure replaces the result only when not appending |
| DatabasePage.Page.LoadDefaultData | src/app/database/page.tsx:49-132 | sends the default query for the page, then lands as `Land` says, outside search mode |
| DatabasePage.Page.HandleSearch | src/app/database/page.tsx:135-232 | a blank box makes no request and changes nothing; otherwise the trimmed text with the page, 50 and the page's offset, landing in search mode |
| DatabasePage.Page.Search | src/app/database/page.tsx:146-229 | the request is in progress until its reply has landed |
| DatabasePage.Page.LoadNextPage | src/app/database/page.tsx:235-242 | asks for the next page in the current mode, appending; in search mode a blank box sends nothing and changes nothing; a failure leaves rows, page and `hasMore` as they were; once a request was made, loading has ended, and a search has ended `isSearching` (a default load leaves it) |
| DatabasePage.Page.HandleTogglePublic | src/app/database/page.tsx:245-299 | sends the opposite value; on success only the matching rows change; on failure the rows are unchanged; the id is no longer busy afterwards |
| DatabasePage.FirstThenNext | src/app/database/page.tsx:49-242 | a first page then the next shows both pages in order, at page 2 |
| UsersPage.EmailIff | src/app/users/page.tsx:57-59 | an input is an e-mail exactly when it contains both `@` and `.` |
| UsersPage.DurationOf | src/app/users/page.tsx:482-483 | `parseInt(v) \|\| 30`: never 0, the number when it parses to a non-zero value, else 30 |
| UsersPage.DurationOfNumeral | src/app/users/page.tsx:482-483 | a typed number reads back as itself, whatever non-digit text follows it |
| UsersPage.ProfileHeaders | src/app/users/page.tsx:163-170 | JSON content type always; `UserId` exactly when the target is truthy, and then the target |
| UsersPage.NoBuiltInIdentity | src/app/users/page.tsx:163-170 | without a truthy target the page sends no UserId header, while the service client would send its default identity |
| UsersPage.FailureText | src/app/users/page.tsx:135-141 | the server's message, else the prefix with status and status text; a `null` body throws reading `message`, and that `TypeError` text is the message |
| UsersPage.NullBodyFailureText | src/app/users/page.tsx:135-141 | a not-ok reply with a `null` body gives "Cannot read properties of null (reading 'message')" whatever its status |
| UsersPage.SubIdOf | src/app/users/page.tsx:124-158 | the `subId` of an ok reply; a failed request, a non-ok reply (`FailureText`), a `null` body (the `TypeError` reading `subId`) or a falsy `subId` is the matching error |
| UsersPage.ProfileOf | src/app/users/page.tsx:177-188 | `data.userInfo` when truthy, else `data`; a failed request, a non-ok reply (`FailureText`) or a `null` body (the `TypeError` reading `userInfo`) is the matching error |
| UsersPage.PremiumOf | src/app/users/page.tsx:191 | the switch is on exactly when the profile's `isPremium` is truthy |
| UsersPage.UpdateBodyWellFormed | src/app/users/page.tsx:234-259 | the body is well formed (flag and integer agree, a positive duration comes exactly with a grant) exactly when the page's guard lets it through |
| UsersPage.EmailLookupExactlyEmail | src/app/users/page.tsx:120-123 | the e-mail lookup happens exactly when the trimmed input is an e-mail address, and looks up that trimmed input; the emptiness guard never decides |
| UsersPage.UpdateTarget | src/app/users/page.tsx:266 | the resolved id when truthy, else the profile's `userId` |
| UsersPage.Page.constructor | src/app/users/page.tsx:47-53 | the initial page state |
| UsersPage.Page.SetUserId | src/app/users/page.tsx:336 | replaces the input |
| UsersPage.Page.SetIsPremium | src/app/users/page.tsx:469 | replaces the switch |
| UsersPage.Page.SetPremiumDuration | src/app/users/page.tsx:482-483 | the duration becomes `DurationOf` the input, never 0 |
| UsersPage.Page.HandleSearch | src/app/users/page.tsx:114-221 | a failed e-mail lookup makes no profile request; the profile request names the resolved id; success shows the profile and its flag; failure shows nothing; loading is over afterwards |
| UsersPage.Page.ShowProfile | src/app/users/page.tsx:185-204 | the profile and flag shown, and a future expiry prefills the duration |
| UsersPage.Page.HandleUpdatePremium | src/app/users/page.tsx:224-306 | without a profile, or a grant with a duration of 0 or less, nothing is sent; otherwise a well-formed body goes to `UpdateTarget`, and the answered profile is shown |
| UsersPage.SearchResolves | src/app/users/page.tsx:143-188 | an e-mail with a found `subId` resolves to it, and `{userInfo}` gives the profile |
| UsersPage.SearchByEmail | src/app/users/page.tsx:114-221 | a search by e-mail shows the resolved account's profile |
| UsersPage.UpdateAfterEmailSearch | src/app/users/page.tsx:266-269 | an update after an e-mail search goes to the resolved account, not to the address |

## Left out

- Rendering, layout and UI-only components are not modelled, and neither are toasts or console logging. The password gate, the mock data and the version-update form are left out too: they hold no logic beyond layout, local storage and a `String(bool)` payload.
- The network and storage plumbing is left out: axios and `fetch`, the Redis client singleton and its connection, the pg pool and its environment configuration, and the reverse-proxy rewrites. The remote store, the tables and the services are maps, sets and inputs.
- A failing Redis call is not modelled, so the notes route's 500 replies for store errors (src/app/api/notes/route.ts:39-48, 83-92, 115-124) are missing. A malformed JSON body (`request.json()` throwing) is left out of every route.
- SQL semantics are not modelled: LIKE matching, `ORDER BY`, `LIMIT`/`OFFSET`, and `%` and `_` acting as wildcards in the search text. The query and search routes take the rows the database answers with as an input. The update route reads the posts table only by key, and the blacklist table holds the `user_id` text.
- Dates and floating point are not modelled. The binding date (`toISOString().split('T')[0]`), today's date and the remaining days of a membership (`timestampToDate`, `Math.ceil` of a millisecond difference) are inputs.
- UpdateRoute.Post: the `post_id` column is taken to be PostgreSQL's `integer`; the schema is not part of this model. The text of the database's refusal of an id (pg serialises an object with `JSON.stringify` and an array as an array literal before PostgreSQL words its error) is an input, not computed. PostgreSQL 16's underscores and `0x`/`0o`/`0b` prefixes in integer input are not modelled.
- QueryRoute.Post: which texts change the tables, and which make the driver answer with an array of results, is the database's to decide and an input; the model does not parse SQL.
- Case mapping covers ASCII letters only, and `Number`/`parseInt` only decimal integers. `Number` of any other string is read as `NaN`; an array converts through its string, as `Number` does.
- Async interleaving is out of scope: overlapping requests, the race between `updatingIds` and other updates, and abandoned promises. Each handler runs to completion.
- The zod check that title and content are non-empty before `onSubmit` runs is not modelled (src/components/notification/in-app-message-form.tsx:24-28).
- Kv.KvStore.ReadByPattern: when `keyTransform` sends two matching keys to one name, JavaScript keeps the value of the key `KEYS` listed last. `KEYS` lists keys in no fixed order, so the model only promises that the kept value is one of those keys' values.
