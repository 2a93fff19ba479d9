# Lost & Found: a verified model of the record store, theft tracker, auth and listing logic

This project models the core of the Lost & Found web application in Dafny: a React client
with a small serverless backend over a key-value store. It covers the following:

- **The backend handlers** (`supabase/functions/server/index.tsx`), as a `Server` class over
  one map from key to JSON object. Items, claims and theft reports live under the key
  prefixes `item:`, `claim:` and `theft:`. The handlers are list-by-prefix, create,
  theft-report update and the `/stats` aggregate.
- **The theft tracker** (`components/TheftTracker.tsx`), as a `Tracker` class. It holds:
  - the report list and its per-status counts;
  - the case-insensitive search;
  - create, edit and resolve, online and offline;
  - loading with the browser-storage fallback.
- **Authentication**:
  - the email and phone validators, the password-strength meter and per-field sign-up
    validation;
  - login and sign-up against the `lostfound_users` map (`components/AuthPage.tsx`);
  - the single-slot session object (`utils/auth.ts`).
- **The main page** (`App.tsx`): filtering by type, category and search text, the
  recent-items strip, and the handlers. Reporting an item, clicking "claim" and submitting a
  claim are gated on a logged-in user.
- **The three forms**: theft report, lost/found item and claim. Also the demo-data seeding of
  `utils/demoData.ts`.

Browser storage is a `LocalStorage` class with one field per key the application uses. Each
field holds the decoded value. Timestamps, `Date.now()` ids and random suffixes are opaque
strings passed in as parameters, and so are the demo dates and image asset. Each client API
call is a `reachable` flag: `true` takes the success path and `false` the `catch` path. A
successful reply is what the server handler builds for that request body.

The project has one module per source file, plus five shared modules:

- `Common`: `Option`, `Result`, `Array.prototype.filter` and its lemmas, `slice`.
- `Text`: `toLowerCase`, `includes`, `startsWith`, `trim`, `.length` in UTF-16 code units and
  the regex character classes.
- `Json`: JSON values and the `{ id, ...body, field }` spread.
- `Records`: the client's entities.
- `Storage`: browser storage.

Paths in the table are relative to the repository root.

## Model

| member | source | states |
|---|---|---|
| Json.Stamped | src/supabase/functions/server/index.tsx:44-48 | `{ id, ...body, [field]: stamp }` has exactly the body's keys plus `id` and the stamp field. The stamp always wins. A body `id` replaces the generated one. Every other body field is copied verbatim. |
| KvServer.NewKey | src/supabase/functions/server/index.tsx:43 | The generated key starts with the resource's prefix, followed by the opaque suffix. |
| KvServer.NewRecord | src/supabase/functions/server/index.tsx:44-48 | The created record's keys are the body's plus `id` and `createdAt`. `createdAt` is the server's value even if the body has one. `id` is the body's `id` if present, else the storage key. Other body fields are copied. |
| KvServer.ReplacementRecord | src/supabase/functions/server/index.tsx:143-147 | The update record is the body plus `id` and `updatedAt`. The server's `updatedAt` wins. `id` is the body's `id` if present, else the URL id. All other body fields are copied. |
| KvServer.Server.constructor | src/supabase/functions/server/index.tsx:4 | The key-value store the handlers share; it starts empty. |
| KvServer.Server.GetByPrefix | src/supabase/functions/server/index.tsx:31 | Returns each stored key with the prefix exactly once, with its stored value, in an unspecified order. With no such key the result is the empty list. |
| KvServer.Server.List | src/supabase/functions/server/index.tsx:29-37 | GET /items, /claims, /theft-reports: exactly the stored values under the resource's prefix, and `[]` if there are none. |
| KvServer.Server.Create | src/supabase/functions/server/index.tsx:40-55 | A body that does not parse gives that resource's 500 message, with the store unchanged. Otherwise one key under the prefix is written with the stamped record, and the reply is that record. |
| KvServer.Server.UpdateTheftReport | src/supabase/functions/server/index.tsx:139-154 | The store becomes the old store with exactly key `id` set to the replacement record. The error path leaves the store unchanged. |
| KvServer.Server.GetStats | src/supabase/functions/server/index.tsx:87-107 | `lostCount` and `foundCount` are the numbers of stored items whose `type` is "lost" / "found". `claimsCount` is the number of stored claims. `reunionsCount` is the minimum of the first two. |
| KvServer.CountByTypeOverKeys | src/supabase/functions/server/index.tsx:92-93 | Filtering a listing by `type` counts the same keys as the reference set of stored items of that type. |
| KvServer.ListingCountsType | src/supabase/functions/server/index.tsx:89-93 | For any listing of `item:`, the length of the type filter is the number of stored items of that type. |
| KvServer.ListingLength | src/supabase/functions/server/index.tsx:90-94 | A listing has as many entries as there are keys under the prefix. |
| KvServer.StatsBounds | src/supabase/functions/server/index.tsx:92-95 | `reunionsCount` is at most `lostCount` and at most `foundCount`, and `lostCount + foundCount` is at most the number of items. |
| KvServer.ClaimKeepsItemCounts | src/supabase/functions/server/index.tsx:78 | Writing any record under a `claim:` key leaves `lostCount` and `foundCount` unchanged. |
| KvServer.ClaimRaisesClaimsCount | src/supabase/functions/server/index.tsx:72-78 | Writing a claim under a fresh key raises `claimsCount` by exactly one. |
| KvServer.ItemRaisesItsCount | src/supabase/functions/server/index.tsx:43-49 | Creating an item under a fresh key raises the count of its body's `type` by one. It leaves the other type's count and `claimsCount` unchanged. |
| KvServer.TypeSetGrows | src/supabase/functions/server/index.tsx:49 | A new item key adds one to its type's set of keys and nothing to any other type's. |
| KvServer.CreateKeepsEarlier | src/supabase/functions/server/index.tsx:43-49 | A create under a fresh key adds that key to the listing of every prefix it starts with and changes no other listing. Every earlier record keeps its value. |
| KvServer.UpdateIsFullOverwrite | src/supabase/functions/server/index.tsx:141-148 | After an update, key `id` exists whether or not it existed before and whatever its prefix. Old fields missing from the body are gone, and every other key is unchanged. |
| KvServer.UpdateOffPrefixUnlisted | src/supabase/functions/server/index.tsx:139-148 | An update at a key outside `theft:` does not change the set of keys the theft-report listing returns. |
| TheftTracker.CalculateStats | src/components/TheftTracker.tsx:88-95 | `total` is the list length. `investigating`, `resolved` and `closed` are each the number of positions holding a report with that status. The three sum to at most `total`, with equality when every status is one of the three. |
| TheftTracker.StatusCountIsPositions | src/components/TheftTracker.tsx:91-93 | The length of the status filter is the number of positions holding a report with that status. |
| TheftTracker.StatusCountsBounded | src/components/TheftTracker.tsx:91-93 | The per-status filter lengths sum to at most the list length, with equality when every status is known. |
| TheftTracker.CreateCountsAsInvestigating | src/components/TheftTracker.tsx:121-123 | Prepending a new report raises `total` and `investigating` by one and leaves `resolved` and `closed` unchanged. |
| TheftTracker.FilteredReports | src/components/TheftTracker.tsx:179-188 | The result keeps list order (a subsequence). A report is kept iff the lowercased query occurs in its lowercased item name, description, location, reporter name or suspect name (if it has one). A kept report keeps all its copies and a dropped one keeps none. An empty query keeps every report. |
| TheftTracker.FilteredReportsFacts | src/components/TheftTracker.tsx:179-188 | The same four facts, proved about the underlying filter. |
| TheftTracker.ReplaceById | src/components/TheftTracker.tsx:105-112 | `reports.map(r => r.id === id ? x : r)`: same length; each entry with that id becomes `x` and every other entry is unchanged. |
| TheftTracker.NewReport | src/components/TheftTracker.tsx:119-134 | A created report carries exactly the form's fields, status "Under Investigation" and a creation time. Its id is `theft:` + suffix online (the server key) and `theft-local-` + suffix offline. |
| TheftTracker.EditedReport | src/components/TheftTracker.tsx:101-111 | The edited report keeps the edited report's status and carries the form's fields. Online, the id is the URL id and `updatedAt` is set. `createdAt` is gone, because the update is a full overwrite and its body has none. Offline, id, `createdAt` and `updatedAt` are the original's. |
| TheftTracker.ResolvedReport | src/components/TheftTracker.tsx:157-167 | The resolved report has status "Resolved", the same form fields, suspect and creation time, and the same id when there was one. Offline it is exactly the report with its status changed. Online, `updatedAt` is set. |
| TheftTracker.UntouchedOfflineEdit | src/components/TheftTracker.tsx:111 | Opening the form on a report and submitting it unchanged while offline gives back exactly that report. |
| TheftTracker.OfflineReportUpdatedOnlineIsUnlisted | src/components/TheftTracker.tsx:101-130 | A `theft-local-` id is not under `theft:`, so updating such a report online writes a key the theft-report listing does not return. |
| TheftTracker.Tracker.constructor | src/components/TheftTracker.tsx:39-42 | Empty list, empty search, form closed, nothing being edited. |
| TheftTracker.Tracker.LoadReports | src/components/TheftTracker.tsx:59-86 | On success, the list and the stored copy are the server's list, or `[]` if it sent none. On failure, the list is the stored copy, or empty if there is none. A copy that does not parse is removed and the list is emptied. Afterwards the stored copy equals the list, or is absent with the list empty. |
| TheftTracker.Tracker.OpenNewReport | src/components/TheftTracker.tsx:305-308 | The "Add Report" button opens the form with nothing being edited. |
| TheftTracker.Tracker.StartEdit | src/components/TheftTracker.tsx:149-152 | Opens the form on the given report. |
| TheftTracker.Tracker.CancelForm | src/components/TheftTracker.tsx:491-494 | Closes the form and clears the report being edited. |
| TheftTracker.Tracker.SetSearchQuery | src/components/TheftTracker.tsx:40 | Sets the search text. An empty text shows every report, and otherwise a report is shown iff it matches. |
| TheftTracker.Tracker.SubmitReport | src/components/TheftTracker.tsx:97-147 | A create prepends exactly one new report (online or offline) and raises `total` and `investigating` by one, leaving the other counts unchanged. An edit replaces exactly the entries with the edited id. Either way the stored copy equals the new list, and the form closes. |
| TheftTracker.Tracker.Resolve | src/components/TheftTracker.tsx:154-177 | Replaces the entries with the report's id by its resolved version. The stored copy equals the new list. |
| TheftReportForm.With | src/components/TheftReportForm.tsx:48-50 | Setting one field changes exactly that field. |
| TheftReportForm.Initial | src/components/TheftReportForm.tsx:31-41 | Each field is the initial report's, or "" without one. The date falls back to today when it is missing or empty. |
| TheftReportForm.InitialRoundTrip | src/components/TheftReportForm.tsx:31-41 | For a report with a date, the initial form is exactly the report's form fields. |
| TheftReportForm.FormState.constructor | src/components/TheftReportForm.tsx:31-41 | The form starts in its initial state. |
| TheftReportForm.FormState.HandleChange | src/components/TheftReportForm.tsx:48-50 | `handleChange` replaces the form by the one-field update. |
| TheftReportForm.FormState.HandleSubmit | src/components/TheftReportForm.tsx:43-46 | Submits the current state unchanged; its type has no id, status or createdAt. |
| ItemReportForm.With | src/components/ItemReportForm.tsx:55-128 | Each setter changes exactly its own field. |
| ItemReportForm.Initial | src/components/ItemReportForm.tsx:28-36 | Every field starts empty, except the date, which is today. |
| ItemReportForm.Submission | src/components/ItemReportForm.tsx:38-45 | The draft's type is the `type` prop. The six text fields pass through unchanged. An empty image URL becomes the fixed placeholder and a non-empty one is kept. |
| ItemReportForm.SubmissionRoundTrip | src/components/ItemReportForm.tsx:43 | A submitted draft always has an image. The placeholder default applies once: resubmitting a draft gives the same draft. A form that had an image is recovered exactly. |
| ItemReportForm.ItemFormState.constructor | src/components/ItemReportForm.tsx:28-36 | The form starts in its initial state. |
| ItemReportForm.ItemFormState.SetField | src/components/ItemReportForm.tsx:55-128 | A setter replaces the form by the one-field update. |
| ItemReportForm.ItemFormState.HandleSubmit | src/components/ItemReportForm.tsx:38-45 | Submits the draft built from the current state and the type. |
| ClaimForm.WithText | src/components/ClaimForm.tsx:51-161 | A text or select setter changes exactly its own field and neither check box. |
| ClaimForm.WithFlag | src/components/ClaimForm.tsx:178-190 | A check-box setter changes exactly its own box and no text field. |
| ClaimForm.Initial | src/components/ClaimForm.tsx:15-28 | Every text field starts "", the preferred contact is "email", and both boxes are clear. |
| ClaimForm.FlagNeedsTick | src/components/ClaimForm.tsx:178-190 | A box that ends up ticked was ticked from the start or by one of the actions. |
| ClaimForm.FreshFormNeedsBothTicks | src/components/ClaimForm.tsx:26-36 | A fresh form passes the submit gate only if the actions include ticking both boxes. |
| ClaimForm.ClaimFormState.constructor | src/components/ClaimForm.tsx:15-28 | The form starts in its initial state. |
| ClaimForm.ClaimFormState.SetTextField | src/components/ClaimForm.tsx:51-161 | A setter replaces the form by the one-field update. |
| ClaimForm.ClaimFormState.SetFlagField | src/components/ClaimForm.tsx:178-190 | A check box replaces the form by the one-box update. |
| ClaimForm.ClaimFormState.HandleSubmit | src/components/ClaimForm.tsx:30-37 | Something is submitted iff both boxes are ticked, and then it is the whole form state unchanged. |
| AuthPage.IsValidEmail | src/components/AuthPage.tsx:59-61 | `isValidEmail` accepts exactly the strings with no whitespace, exactly one `@` with something before it, and after the `@` a dot that is neither its first nor its last character. |
| AuthPage.EmailShapeIff | src/components/AuthPage.tsx:60 | The regex `^[^\s@]+@[^\s@]+\.[^\s@]+$` accepts a string iff it has no whitespace, exactly one `@` with something before it, and after the `@` a dot that is neither its first nor its last character. Both directions are proved. |
| AuthPage.Digits | src/components/AuthPage.tsx:64 | `replace(/\D/g, "")` keeps exactly the digits, in order, each as many times as it occurs. |
| AuthPage.IsValidPhone | src/components/AuthPage.tsx:63-65 | A phone number is valid iff exactly ten of its positions hold a digit. |
| AuthPage.PhoneIgnoresSeparators | src/components/AuthPage.tsx:63-65 | Inserting non-digit characters anywhere does not change whether a phone number is valid. |
| AuthPage.TenDigitsValid | src/components/AuthPage.tsx:63-65 | Ten digits and nothing else is valid. |
| AuthPage.Score | src/components/AuthPage.tsx:71-75 | The score is at most 4, and it is 4 iff the password is 8 or more UTF-16 code units long and has both cases, a digit and a symbol. |
| AuthPage.PasswordStrength | src/components/AuthPage.tsx:67-81 | Lengths are in UTF-16 code units. Percentage 0 iff the password is empty. Length 1 to 5 gives 25. From length 6, a score of at most 1 gives 40, and 2, 3 and 4 give 60, 80 and 100. "Strong" iff length ≥ 8 with both cases, a digit and a symbol. "Strong", "Good" and "Fair" go with 100, 80 and 60 respectively. "Weak" iff the percentage is 25 or 40. |
| AuthPage.StrengthGrows | src/components/AuthPage.tsx:67-81 | Appending characters never lowers the percentage. |
| AuthPage.FieldError | src/components/AuthPage.tsx:83-111 | The error is "" iff the field is acceptable: name trimmed to at least 2 UTF-16 code units, valid email, valid phone, password of at least 6 code units, or a confirmation that is non-empty and equal to the password. Otherwise it is the field's "missing" message for a missing value and its "invalid" message otherwise. |
| AuthPage.LoginOutcome | src/components/AuthPage.tsx:130-163 | Login succeeds iff both fields are non-empty, the email is valid, an account exists under it and its stored password equals the input. The failures are checked in that order, each with its message. The session user is name, email and phone, with no password. |
| AuthPage.SignupOutcome | src/components/AuthPage.tsx:182-210 | Sign-up succeeds iff all five fields pass and the email has no account. On success the map gains exactly one entry, keyed by the email, and keeps all others. Failures give "fix the errors" or the duplicate message. |
| AuthPage.LoginAfterSignup | src/components/AuthPage.tsx:130-213 | After a successful sign-up, logging in with the same email and password succeeds and yields the same session user. |
| AuthPage.SignupKeepsOtherLogins | src/components/AuthPage.tsx:202-210 | A sign-up does not change the login outcome for any other email. |
| AuthPage.Page.constructor | src/components/AuthPage.tsx:30-56 | Both forms start empty and there are no errors. |
| AuthPage.Page.ValidateSignupField | src/components/AuthPage.tsx:83-111 | Records exactly that field's error, and returns true iff the field is acceptable against the current sign-up password. |
| AuthPage.Page.HandleLogin | src/components/AuthPage.tsx:122-172 | On success it writes the session slot, sets the remember flag if "remember me" is ticked, and returns the user. On failure it shows the first failed check's message and leaves storage untouched. |
| AuthPage.Page.HandleSignup | src/components/AuthPage.tsx:174-218 | All five fields are validated and their errors recorded. A duplicate email sets the email error. Storage changes only on success, to the new accounts map and the new session user. |
| Session.Login | src/utils/auth.ts:19-21 | `login(u)` overwrites the slot. Afterwards `getCurrentUser()` is `u` and `isLoggedIn()` holds. |
| Session.Logout | src/utils/auth.ts:23-25 | After `logout()`, `isLoggedIn()` is false and `getCurrentUser()` is null. |
| Session.IsLoggedIn | src/utils/auth.ts:10-12 | `isLoggedIn()` holds iff a session is stored. |
| Session.GetCurrentUser | src/utils/auth.ts:14-17 | `getCurrentUser()` is non-null iff `isLoggedIn()` holds, and then it is the stored user. |
| Session.LastWriteWins | src/utils/auth.ts:19-25 | After any non-empty series of logins and logouts, the slot depends only on the last write. |
| Session.LogoutIdempotent | src/utils/auth.ts:23-25 | Two logouts leave the same state as one. |
| Storage.LocalStorage.Empty | src/utils/demoData.ts:6-21 | A profile with nothing stored. |
| DemoData.SeedUsers | src/utils/demoData.ts:6-18 | An empty map gets exactly one entry, keyed `demo@lostfound.com`, with password `demo123`. A non-empty map is unchanged. |
| DemoData.DemoItems | src/utils/demoData.ts:25-71 | Three items with ids demo-1, demo-2, demo-3 and types lost, found, found. All are active and reported by the demo account. Only the first has an image. |
| DemoData.SeedItems | src/utils/demoData.ts:21-75 | An empty list becomes the demo items; a non-empty one is unchanged. |
| DemoData.SeedIdempotent | src/utils/demoData.ts:8-24 | Seeding a second time, at any later time, changes nothing. |
| DemoData.DemoLoginWorks | src/utils/demoData.ts:9-15 | On an empty profile, logging in with the advertised demo credentials succeeds. |
| DemoData.InitializeDemoData | src/utils/demoData.ts:4-76 | The users map and the items list become their seeded versions. |
| App.FilterItems | src/App.tsx:166-176 | The result is a subsequence of the items. An item is in it iff its type is `t`, the search matches its title, description or location, and the category is "All" or equal to its own. A selected item keeps all its copies and any other item keeps none. An empty query with "All" keeps every item of type `t`. |
| App.FilterItemsFacts | src/App.tsx:166-176 | The same facts for the two chained filters, via filter fusion. |
| App.LostFoundDisjoint | src/App.tsx:178-179 | No item is in both the lost and the found list. |
| App.RecentItems | src/App.tsx:455 | At most the first six items, in order. |
| App.ReportedBy | src/App.tsx:119 | The user's email, or "anonymous" with no user or an empty email. |
| App.CreatedItem | src/App.tsx:116-121 | The item the server returns has the request's fields, its status and reporter, the `item:` key as its id, and the server's creation time. |
| App.ReportedItemListedFirst | src/App.tsx:122-168 | A just-reported item heads its type's unfiltered list. |
| App.Page.constructor | src/App.tsx:42-57 | The initial page state. |
| App.Page.Mount | src/App.tsx:60-64 | Seeds the demo data, then takes the stored session as the current user. |
| App.Page.HandleReportItem | src/App.tsx:91-99 | Without a user, it switches to the login view and opens nothing. With a user, it opens the report dialog for that type. |
| App.Page.HandleLogin | src/App.tsx:101-105 | Sets the user and returns to the homepage. |
| App.Page.HandleLogout | src/App.tsx:107-112 | Clears the stored session and the user, and returns to the homepage. |
| App.Page.HandleSubmitReport | src/App.tsx:114-129 | Sends the draft with status "active" and the reporter. On success it prepends the created item, keeping the earlier items in order, and closes the dialog. On failure nothing changes. |
| App.Page.HandleSubmitClaim | src/App.tsx:131-150 | Without a user, it goes to the login view and sends nothing. With a user, it sends the claim with `claimedBy`, and on success closes the dialog. |
| App.Page.HandleClaimClick | src/App.tsx:152-159 | Without a user, it goes to the login view. With a user, it opens the claim dialog. |
| App.Page.HandleViewDetails | src/App.tsx:161-164 | Selects the item and opens the detail dialog. |
| Common.Filter | src/App.tsx:166-176 | `Array.prototype.filter` never lengthens its input. |
| Common.FilterMember | src/App.tsx:166-176 | An element is in a filter's result iff it is in the input and satisfies the predicate. |
| Common.FilterIsSubsequence | src/components/TheftTracker.tsx:179 | A filter keeps the order of what it keeps. |
| Common.FilterFilter | src/App.tsx:167-175 | Two chained filters equal one filter by the conjunction. |
| Common.FilterAppend | src/components/AuthPage.tsx:64 | A filter distributes over concatenation. |
| Common.FilterMultiset | src/App.tsx:166-176 | A filter keeps every copy of a value that satisfies the predicate and no copy of one that does not. |
| Common.FilterCountsIndices | src/components/TheftTracker.tsx:91-93 | A filter's length is the number of input positions that satisfy the predicate. |
| Common.Take | src/App.tsx:455 | `slice(0, n)` is the prefix of length `min(n, length)`. |
| Text.LowerStr | src/components/TheftTracker.tsx:180 | `toLowerCase` keeps the length and lowercases each ASCII letter. |
| Text.Trim | src/components/AuthPage.tsx:88-89 | `trim` returns a contiguous slice with only whitespace around it, and a non-empty result has no whitespace at either end. |
| Text.Utf16Length | src/components/AuthPage.tsx:68-72 | `.length` counts one code unit per character below U+10000 and two above, so it lies between the character count and twice that, and equals the character count when no character is above U+FFFF. |
| Text.Utf16LengthAppend | src/components/AuthPage.tsx:68-72 | The code-unit length of a concatenation is the sum of the lengths. |
| Text.Contains | src/components/TheftTracker.tsx:180-186 | `includes` holds only when the needle is no longer than the string, and it holds whenever the string starts with the needle. |
| Text.StartsWith | src/supabase/functions/server/index.tsx:31 | `startsWith` holds iff the prefix fits and agrees with the string at each of its positions. |
| Text.ContainsEmpty | src/components/TheftTracker.tsx:180-186 | Every string includes the empty string, so an empty query matches. |

## Left out

- Routing: the Hono routing, CORS, the logger middleware and `Deno.serve` are plumbing and are not modelled.
- The key-value module `kv_store.tsx` is not part of this model. Its `getByPrefix` and `set` are modelled on a map, and the listing's order is left unspecified.
- KvServer.Server.Create: the request body is a JSON object or unparsable (`Option<Record>`), and JSON numbers are integers. A body that parses to an array, string, number, boolean or `null` cannot be represented. The source would spread an array or string into index keys `"0"`, `"1"`, …, and a scalar or `null` into nothing. A non-integer number, which the source stores as is, cannot be represented either.
- KvServer.Server.UpdateTheftReport: the same restriction on the request body as for `Create`.
- The handlers' catch-all 500 replies are represented only by the `body.None?` error path, a request body that does not parse. Other exceptions from the store are not modelled.
- `api.ts` is not modelled: network I/O, headers, HTTP status codes and JSON error parsing. Each call is a success-or-failure input, and success returns the record the server handler builds.
- The client and server are tied only by the shape of the reply. The client models do not call the `Server` class, so reply contents are not checked against a shared store.
- `Date.now()`, `Math.random().toString(36)` and ISO timestamps are opaque strings. Nothing in the code makes ids unique, so uniqueness is required only where a lemma needs a fresh key.
- `setTimeout` delays, toasts, `alert` and `console` output are not modelled.
- JSON text and parsing are not modelled: storage slots hold decoded values. An absent `lostfound_users` key and `{}` are the same empty map, and an absent `lostfound_items` key and `[]` are the same empty list.
- Session.IsLoggedIn: a session slot holding a stored value that is falsy but not null cannot be represented. In the source, `isLoggedIn` and `getCurrentUser` could disagree on such a value.
- TheftTracker.Tracker.LoadReports: the `Corrupt` cache stands for text that `JSON.parse` rejects. A stored JSON value that parses but is not a list is not modelled.
- Text.Utf16Length: strings are sequences of Unicode scalar values, so a lone surrogate code unit cannot be represented. The regexes without the `u` flag see a surrogate pair as two non-space, non-digit, non-letter code units, which give the same validator results as one such character.
- Text.Lower: `toLowerCase` is modelled on ASCII letters only, leaving other characters unchanged. Full Unicode case mapping is not modelled. `\s` and `trim` use the complete ECMAScript whitespace set.
- AuthPage.IsValidEmail: the character-level `MatchesAt` decomposition (`RegexMatches`) stands in for regex matching. It describes exactly this regex's language; general regex semantics are not modelled.
- The loading effects `loadItems` and `loadStats` of `App.tsx` are not modelled. They only copy a server reply (or `[]`) into page state, and stats reloads are left out with them.
- The login and sign-up form field setters are not modelled: `loginData` and `signupData` are read as they stand when a handler runs. The re-validation in those setters, and the stale password the confirmation check sees there, are left out.
- The App search and category inputs are plain state setters and are not modelled separately.
- JSX rendering, styling and `getStatusColor` are not modelled, nor are the presentation-only `ItemCard`, `ItemDetailDialog` and `TheftReportCard` components or image asset imports.
- There is no concurrency between clients and no online/offline reconciliation in the source, so none is modelled.
