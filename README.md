# Promo-code campaign front end, modelled in Dafny

The system is a single-page web front end for an influencer promo-code campaign.
Influencers and consumers register. They then sign in: an influencer with their code, a consumer with "first last" as the name.
A visitor redeems a product code against an influencer code on the home page.
An administrator signs in with a fixed pair and manages three tabs: rankings with a CSV export, the influencer list, and product-code uploads.
The browser's session store hands state between pages: `registeredUser`, `userSession` and `isAdmin`.
A hosted database holds the `influencers` and `consumers` tables.

Each page or admin tab is one module here:

- A component whose handlers update React state is a `class`. Its fields are that state, and its methods are the handlers.
- A handler's toast becomes a `Toast` value and its `navigate` a `Route`.
- The session store is `Storage.SessionStore`.
- The database is `Database.Backend`. It holds the two tables and a log of the requests made, so "no lookup happens" can be stated.
- The outcome of an insert comes from outside as an `InsertReply` parameter.

Shared modules model the JavaScript built-ins the pages depend on:

- `JsString`: `trim`, `toUpperCase`, `split`, `join` and the ECMAScript white-space set.
- `Decimal`: integer numerals and the signed decimal prefix `parseInt` reads.
- `Json`: `JSON.stringify`/`JSON.parse` for flat objects of string and integer members, with a proved round trip.

`Flows` holds the properties that span pages.

## Model

| member | source | states |
|---|---|---|
| Storage.SessionStore.GetItem | src/pages/Login.tsx:23 | `getItem` returns the stored text exactly when the key is present, and null otherwise |
| Storage.SessionStore.SetItem | src/pages/Login.tsx:74 | `setItem` binds the key to the value and leaves every other key alone |
| Storage.SessionStore.RemoveItem | src/pages/Login.tsx:31 | `removeItem` deletes that key and only that key |
| Database.SelectInfluencers | src/pages/Login.tsx:56-61 | a row is selected exactly when it is in the table and matches every `eq` filter of the query |
| Database.SelectConsumers | src/pages/Login.tsx:91-97 | a consumer row is selected exactly when it is in the table and matches first name, last name and password |
| Database.SingleInfluencer | src/pages/Login.tsx:61 | `.single()` yields only a row that is in the table and matches |
| Database.SingleConsumer | src/pages/Login.tsx:97 | the same for consumers |
| Database.NoConsumerMatches | src/pages/Login.tsx:91-107 | when no consumer row matches, the select is empty and `.single()` yields no row |
| Database.OneConsumerMatches | src/pages/Login.tsx:91-97 | when exactly one consumer row matches, `.single()` yields that row |
| Database.TwoConsumersMatch | src/pages/Login.tsx:91-97 | when two consumer rows match, `.single()` yields no row |
| Database.NoInfluencerMatches | src/pages/InfluencerRegistration.tsx:29-37 | when no row matches, the select is empty and `.single()` yields no row |
| Database.OneInfluencerMatches | src/pages/Login.tsx:56-61 | when exactly one row matches, `.single()` yields that row |
| Database.AgeReadsBack | src/pages/InfluencerRegistration.tsx:84 | an age typed as an integer's numeral is stored as that integer |
| Database.ProbeFindsCode | src/pages/InfluencerRegistration.tsx:29-37 | with unique codes, a lookup by code finds a row exactly when some row has that code |
| Database.Backend.constructor | src/types/database.ts:2-35 | the backend starts with the given tables and an empty request log |
| Database.Backend.SelectSingleInfluencer | src/pages/InfluencerDashboard.tsx:32-36 | one request is logged; the result is `.single()` over the influencer table |
| Database.Backend.SelectSingleConsumer | src/pages/Login.tsx:91-97 | one request is logged; the result is `.single()` over the consumer table |
| Database.Backend.InsertInfluencerRow | src/pages/InfluencerRegistration.tsx:76-92 | an accepted insert appends the row; a rejected one leaves the table unchanged and returns the error code |
| Database.Backend.InsertConsumerRow | src/pages/ConsumerRegistration.tsx:53-67 | the same for the consumer table |
| JsString.BlankIffTrimEmpty | src/pages/InfluencerRegistration.tsx:42-43 | a text is all white space exactly when `trim()` gives the empty string |
| JsString.TrimIdempotent | src/pages/InfluencerRegistration.tsx:79-82 | trimming twice is trimming once |
| JsString.ToUpperIdempotent | src/pages/Index.tsx:33 | upper-casing twice is upper-casing once |
| JsString.TrimToUpper | src/pages/InfluencerRegistration.tsx:82 | `trim` and `toUpperCase` commute |
| JsString.ToUpperKeepsBlank | src/pages/Index.tsx:17-33 | upper-casing neither makes a blank text non-blank nor the reverse |
| JsString.SplitJoin | src/components/admin/RankingDashboard.tsx:58-59 | splitting a join on its separator gives back the parts when no part contains the separator |
| JsString.JoinSplit | src/components/admin/RankingDashboard.tsx:58-59 | joining the parts of a split gives back the text |
| JsString.SplitLength | src/pages/Login.tsx:94-95 | a split has one more part than the text has separators |
| JsString.CountJoin | src/components/admin/RankingDashboard.tsx:58 | the separators in a join are those between the parts plus those inside them |
| Decimal.DigitsRoundTrip | src/pages/InfluencerRegistration.tsx:84 | the value of a natural number's digits is that number |
| Decimal.ParseIntToString | src/pages/InfluencerRegistration.tsx:84 | `parseInt` reads back any integer's numeral when no digit follows it |
| Decimal.NumeralChars | src/components/admin/RankingDashboard.tsx:53-56 | a numeral consists of digits after an optional minus sign |
| Json.StringRoundTrip | src/pages/Login.tsx:25 | `JSON.parse` reads back any string that `JSON.stringify` escaped |
| Json.NumberRoundTrip | src/pages/Login.tsx:74-80 | an integer member reads back as itself |
| Json.ParseStringify | src/pages/Login.tsx:25 | parsing a stringified flat object gives the same object |
| Json.GetAt | src/pages/InfluencerDashboard.tsx:19-21 | a member read by key is the last member with that key, as `JSON.parse` keeps the last duplicate |
| InfluencerRegistration.WithField | src/pages/InfluencerRegistration.tsx:25-27 | the named field takes the new value; every other field keeps its value |
| InfluencerRegistration.InfluencerRegistrationPage.HandleInputChange | src/pages/InfluencerRegistration.tsx:25-27 | the form becomes `WithField` of the old form |
| InfluencerRegistration.InfluencerRegistrationPage.constructor | src/pages/InfluencerRegistration.tsx:13-22 | the form starts empty and not loading |
| InfluencerRegistration.PrecheckMissing | src/pages/InfluencerRegistration.tsx:42-50 | "Missing Information" holds exactly when first name, last name, password or code trims to the empty string |
| InfluencerRegistration.PrecheckPasswordLength | src/pages/InfluencerRegistration.tsx:52-59 | "password too short" holds exactly when the required check passes and the untrimmed password is under 6 characters; passing both implies at least 6 characters and a non-blank code |
| InfluencerRegistration.InfluencerRegistrationPage.CheckCodeExists | src/pages/InfluencerRegistration.tsx:29-37 | one lookup by `code.toUpperCase()` is made; the code counts as taken exactly when it finds a row |
| InfluencerRegistration.NewInfluencerRow | src/pages/InfluencerRegistration.tsx:78-88 | the row has trimmed names, the code trimmed then upper-cased, the password, 0 points and 0 consumers; sex is null exactly when empty and otherwise as typed; location is null exactly when blank and otherwise trimmed; age is null when empty and otherwise what `parseInt` reads |
| InfluencerRegistration.StoredCodeNormalised | src/pages/InfluencerRegistration.tsx:82 | the stored code is unchanged by `trim` and by `toUpperCase` |
| InfluencerRegistration.ProbeKeyDiffersWhenPadded | src/pages/InfluencerRegistration.tsx:33-82 | the uniqueness probe's key equals the inserted code exactly when the typed code has no surrounding white space |
| InfluencerRegistration.InfluencerRegistrationPage.HandleRegister | src/pages/InfluencerRegistration.tsx:39-124 | a failed precheck yields its toast and no request. A taken code yields "Code Already Exists" after the lookup only. Otherwise the row is inserted. If accepted, `registeredUser` alone is written and /login follows. If rejected, 23505 maps to "Code Already Exists", any other code to "Registration Failed", and nothing is stored. Loading is false after every path that reached the backend |
| ConsumerRegistration.WithField | src/pages/ConsumerRegistration.tsx:24-26 | the named field takes the new value; every other field keeps its value |
| ConsumerRegistration.ConsumerRegistrationPage.HandleInputChange | src/pages/ConsumerRegistration.tsx:24-26 | the form becomes `WithField` of the old form |
| ConsumerRegistration.ConsumerRegistrationPage.constructor | src/pages/ConsumerRegistration.tsx:13-21 | the form starts empty and not loading |
| ConsumerRegistration.PrecheckMissing | src/pages/ConsumerRegistration.tsx:31-39 | "Missing Information" holds exactly when first name, last name or password trims to the empty string |
| ConsumerRegistration.PrecheckPasses | src/pages/ConsumerRegistration.tsx:31-48 | the precheck passes exactly when the three required fields are non-blank and the password has at least 6 characters |
| ConsumerRegistration.NewConsumerRow | src/pages/ConsumerRegistration.tsx:55-63 | the row has trimmed names, the password and 0 redeemed codes; sex is null exactly when empty and otherwise as typed; location is null exactly when blank and otherwise trimmed; age is null when empty and otherwise what `parseInt` reads |
| ConsumerRegistration.HandOffNameSplits | src/pages/ConsumerRegistration.tsx:75-78 | the handed-off name "first last" splits on spaces into at least two parts, and the first is the typed first name when it has no space |
| ConsumerRegistration.ConsumerRegistrationPage.HandleRegister | src/pages/ConsumerRegistration.tsx:28-91 | a failed precheck yields its toast and no request; otherwise exactly one insert is made and no lookup. Accepted: `registeredUser` alone is written and /login follows. Rejected: any error is "Registration Failed" and nothing is stored |
| Index.KnownCodeNotBlank | src/pages/Index.tsx:30-33 | an influencer code that passes the list check was not blank |
| Index.RedeemSucceedsIff | src/pages/Index.tsx:17-57 | a redemption succeeds exactly when the upper-cased influencer code is listed, the product code is not blank and its upper-cased form is not in the used list |
| Index.VerdictCongruence | src/pages/Index.tsx:17-51 | the verdict depends only on each code's blankness and upper-cased form |
| Index.VerdictIgnoresCase | src/pages/Index.tsx:33-43 | upper-casing either code does not change the verdict |
| Index.PaddedCodeRefused | src/pages/Index.tsx:17-41 | any influencer code with white space at its start or end, and something else in it, is refused as an invalid influencer code, whatever its letters and whatever non-blank product code comes with it |
| Index.IndexPage.constructor | src/pages/Index.tsx:10-12 | both codes start empty and the page is not loading |
| Index.IndexPage.SetInfluencerCode | src/pages/Index.tsx:102 | the influencer code field takes the typed value |
| Index.IndexPage.SetProductCode | src/pages/Index.tsx:118 | the product code field takes the typed value |
| Index.IndexPage.HandleRedeem | src/pages/Index.tsx:14-63 | the toast is the verdict on the codes entered. Success clears both fields; every failure keeps them. Loading is false after validation ran, and unchanged on "Missing Information" |
| Login.WithField | src/pages/Login.tsx:35-37 | only the named field changes |
| Login.LoginPage.HandleInputChange | src/pages/Login.tsx:35-37 | the form becomes `WithField` of the old form |
| Login.LoginPage.constructor | src/pages/Login.tsx:13-18 | the form starts with an empty identifier and password, user type "consumer", and the page is not loading |
| Login.Prefill | src/pages/Login.tsx:25-30 | an influencer record sets the user type and the identifier to its code; a consumer record sets them to its name; any other record changes nothing; the password is never touched |
| Login.LoginPage.OnMount | src/pages/Login.tsx:22-33 | a readable `registeredUser` pre-fills the form and is removed; with none, or with unreadable text, the form and store are unchanged |
| Login.ConsumerLoginQuery | src/pages/Login.tsx:91-97 | the looked-up first and last names never contain a space |
| Login.NameParts | src/pages/Login.tsx:94-95 | "first last" splits back into first and last when neither has a space |
| Login.SingleWordName | src/pages/Login.tsx:94-95 | a one-word identifier looks up that word with an empty last name |
| Login.ExtraNamePartsIgnored | src/pages/Login.tsx:94-95 | words after the second are ignored |
| Login.InfluencerLoginFinds | src/pages/Login.tsx:56-61 | with unique codes, influencer sign-in finds a row exactly when a row's code is the upper-cased identifier and its password is the typed one |
| Login.PaddedCodeNeverSignsIn | src/pages/Login.tsx:59 | when no stored code has surrounding white space, an identifier starting with white space never signs in |
| Login.LoginPage.HandleLogin | src/pages/Login.tsx:39-123 | blank credentials yield "Missing Information" with no request. Otherwise exactly one lookup is made, influencer or consumer by user type. A found row writes `userSession` alone and navigates to /influencer-dashboard or /. A missing row writes nothing and yields "Invalid Credentials". Loading ends false |
| Auth.AdminVerdictCases | src/pages/Auth.tsx:19-45 | sign-in succeeds exactly for "admin"/"admin"; "Missing Credentials" holds exactly when either field is empty, untrimmed; " admin" is refused |
| Auth.AuthPage.constructor | src/pages/Auth.tsx:11-13 | both fields start empty and the page is not loading |
| Auth.AuthPage.SetUsername | src/pages/Auth.tsx:79 | the username field takes the typed value |
| Auth.AuthPage.SetPassword | src/pages/Auth.tsx:93 | the password field takes the typed value |
| Auth.AuthPage.HandleLogin | src/pages/Auth.tsx:16-48 | the toast is the verdict; success writes `isAdmin = "true"` alone and navigates to /admin; failure writes nothing; loading ends false unless credentials were missing |
| Admin.OnlyTrueAdmits | src/pages/Admin.tsx:16-24 | the gate opens exactly on the text "true"; a missing flag, "TRUE" and "true " do not open it |
| Admin.AdminPage.constructor | src/pages/Admin.tsx:12 | the page starts unauthenticated, so it renders nothing |
| Admin.AdminPage.CheckAuth | src/pages/Admin.tsx:15-25 | an admitted flag authenticates the page; any other sends the visitor to /auth and leaves the page as it was |
| Admin.AdminPage.HandleLogout | src/pages/Admin.tsx:27-34 | `isAdmin` alone is removed, so the gate no longer admits; the toast is "logged out" and /auth follows |
| InfluencerDashboard.SessionId | src/pages/InfluencerDashboard.tsx:21 | the id filter carries the session's string `id` as it is, and "undefined" when the member is missing |
| InfluencerDashboard.CheckSession | src/pages/InfluencerDashboard.tsx:16-27 | no session is found exactly when nothing or the empty text is stored; an accepted session has type "influencer" |
| InfluencerDashboard.DisplayedAge | src/pages/InfluencerDashboard.tsx:137 | the fallback text is shown exactly when no row, no age or age 0; otherwise the age's numeral |
| InfluencerDashboard.DisplayedText | src/pages/InfluencerDashboard.tsx:136-138 | location and sex show their own text unless it is null or empty, when the fallback shows |
| InfluencerDashboard.DisplayedStats | src/pages/InfluencerDashboard.tsx:109-122 | without a loaded row, points and consumer count show 0 and the profile the fallback; with one, the row's own numbers |
| InfluencerDashboard.InfluencerDashboardPage.constructor | src/pages/InfluencerDashboard.tsx:10-12 | no session and no row yet, and the page is loading |
| InfluencerDashboard.InfluencerDashboardPage.OnMount | src/pages/InfluencerDashboard.tsx:15-51 | no session sends the visitor to /login; another kind of session sends them to /. Either way there is no request and loading stays on. An influencer session is kept and exactly one request fetches the row by the session's `id`, even when that member is missing: found, the row is shown; not found, the load-failed toast appears. Loading then ends |
| InfluencerDashboard.InfluencerDashboardPage.HandleLogout | src/pages/InfluencerDashboard.tsx:53-60 | `userSession` alone is removed, so the next check finds no session; / follows |
| InfluencerManagement.CodeLettersSpelled | src/components/admin/InfluencerManagement.tsx:29 | the alphabet's first run is "A" to "Z" |
| InfluencerManagement.CodeDigitsSpelled | src/components/admin/InfluencerManagement.tsx:29 | the alphabet's second run is "0" to "9" |
| InfluencerManagement.CodeCharsAre | src/components/admin/InfluencerManagement.tsx:29 | a character is in the alphabet exactly when it is an upper-case letter or a digit |
| InfluencerManagement.InfluencerList.GenerateCode | src/components/admin/InfluencerManagement.tsx:28-35 | whatever the random picks, the code is "INF-" and three alphabet characters, seven in all |
| InfluencerManagement.WellFormedCodeNormalised | src/components/admin/InfluencerManagement.tsx:53 | a generated code is unchanged by `toUpperCase` and `trim` |
| InfluencerManagement.InfluencerList.constructor | src/components/admin/InfluencerManagement.tsx:19-26 | the list starts with the three seed influencers; the name fields start empty and the form hidden |
| InfluencerManagement.InfluencerList.SetFirstName | src/components/admin/InfluencerManagement.tsx:150 | the first-name field takes the typed value |
| InfluencerManagement.InfluencerList.SetLastName | src/components/admin/InfluencerManagement.tsx:161 | the last-name field takes the typed value |
| InfluencerManagement.InfluencerList.ToggleForm | src/components/admin/InfluencerManagement.tsx:132 | the add form's visibility flips |
| InfluencerManagement.InfluencerList.CancelForm | src/components/admin/InfluencerManagement.tsx:167 | the add form is hidden |
| InfluencerManagement.InfluencerList.HandleAddInfluencer | src/components/admin/InfluencerManagement.tsx:37-66 | a blank name yields "Missing Information" and changes nothing. Otherwise exactly one entry is appended after the unchanged earlier entries: trimmed names, a well-formed code and 0 points. The name fields are then cleared and the form hidden |
| InfluencerManagement.Appended | src/components/admin/InfluencerManagement.tsx:57 | the new list is the old one with the entry at its end |
| InfluencerManagement.MaxPoints | src/components/admin/InfluencerManagement.tsx:76 | the bar scale is at least 1 and at least every entry's points, and is 1 or some entry's points |
| InfluencerManagement.InfluencerList.SortByPoints | src/components/admin/InfluencerManagement.tsx:90-91 | the list is sorted in place into non-increasing points, holds the same entries, and keeps the relative order of entries with equal points, as the stable `Array.prototype.sort` does |
| InfluencerManagement.InsertAt | src/components/admin/InfluencerManagement.tsx:91 | one insertion step extends the sorted prefix by one, keeps the entries and keeps every group of equal points in order |
| InfluencerManagement.SwapDown | src/components/admin/InfluencerManagement.tsx:91 | the two neighbouring entries change places and the entries are kept; when their points differ, every group of equal points keeps its order |
| InfluencerManagement.SwapKeepsTies | src/components/admin/InfluencerManagement.tsx:91 | exchanging two neighbours with different points leaves the entries of every points value in the same order |
| InfluencerManagement.GroupsDecideTies | src/components/admin/InfluencerManagement.tsx:91 | two lists with the same group of entries for each points value that occurs keep the same order within every points value |
| RankingDashboard.MedalIcon | src/components/admin/RankingDashboard.tsx:30-41 | an icon is shown exactly for positions 0, 1 and 2 |
| RankingDashboard.MedalsDistinct | src/components/admin/RankingDashboard.tsx:30-41 | the three podium positions get three different icons |
| RankingDashboard.Podium | src/components/admin/RankingDashboard.tsx:82 | the podium is the first min(3, n) rankings, each top three and with an icon |
| RankingDashboard.MaxPoints | src/components/admin/RankingDashboard.tsx:44 | with no rankings the maximum is minus infinity; otherwise it bounds every ranking's points and is one of them |
| RankingDashboard.Lines | src/components/admin/RankingDashboard.tsx:48-57 | the lines are the header then one row per ranking, in order, with rank i+1 |
| RankingDashboard.ExportLines | src/components/admin/RankingDashboard.tsx:48-59 | when no field holds a newline, splitting the export on newlines gives back its lines, one more than the rankings |
| RankingDashboard.ExportFields | src/components/admin/RankingDashboard.tsx:50-58 | when no field holds a newline and ranking i's fields hold no comma, data line i splits on commas into rank, name, code, points and redemptions |
| RankingDashboard.CommasAddColumns | src/components/admin/RankingDashboard.tsx:58 | a row splits into 5 parts plus one for every comma in the name or code, so unquoted commas shift the columns |
| ProductCodeManagement.Upload | src/components/admin/ProductCodeManagement.tsx:14-28 | no file changes nothing; a rejected file only shows the file-type toast; an accepted file starts uploading at progress 0 |
| ProductCodeManagement.UploadKeepsValid | src/components/admin/ProductCodeManagement.tsx:14-28 | choosing a file keeps progress in 0..100 in steps of ten, and keeps the total and the used count |
| ProductCodeManagement.TickKeepsValid | src/components/admin/ProductCodeManagement.tsx:31-48 | a tick keeps the state valid and never lowers the total; available stays the total because the used count stays 0 |
| ProductCodeManagement.TicksAdvance | src/components/admin/ProductCodeManagement.tsx:31-37 | each tick below 100 adds 10 to progress and nothing else |
| ProductCodeManagement.UploadCompletes | src/components/admin/ProductCodeManagement.tsx:31-49 | the eleventh tick after an accepted file ends the upload at 100 and raises the total by a count in [1000, 10999], after which the usage rate shows |
| ProductCodeManagement.ProductCodePanel.constructor | src/components/admin/ProductCodeManagement.tsx:9-12 | the counters start at zero, idle, and valid |
| ProductCodeManagement.ProductCodePanel.HandleFileUpload | src/components/admin/ProductCodeManagement.tsx:14-52 | the new state and toast are those of `Upload` |
| ProductCodeManagement.ProductCodePanel.OnTick | src/components/admin/ProductCodeManagement.tsx:31-49 | the random count lies in [1000, 10999]; the new state is that of `Tick`; the success toast shows on the completing tick only |
| Flows.ReadsBack | src/pages/Login.tsx:25 | any stored flat record is non-empty text that parses back to itself |
| Flows.InfluencerPrefill | src/pages/InfluencerRegistration.tsx:100-103 | the influencer hand-off record pre-fills "influencer" and the upper-cased typed code |
| Flows.InfluencerHandOffPrefills | src/pages/InfluencerRegistration.tsx:100-103 | the stored influencer hand-off survives the store round trip and pre-fills "influencer" and the upper-cased typed code |
| Flows.ConsumerPrefill | src/pages/ConsumerRegistration.tsx:75-78 | the consumer hand-off record pre-fills "consumer" and "first last" from the untrimmed fields |
| Flows.ConsumerHandOffPrefills | src/pages/ConsumerRegistration.tsx:75-78 | the stored consumer hand-off survives the store round trip and pre-fills "consumer" and "first last" |
| Flows.RegisteredRowKeepsCodesTrimmed | src/pages/InfluencerRegistration.tsx:82 | registering keeps every stored code free of surrounding white space |
| Flows.PaddedCodePrefillFails | src/pages/InfluencerRegistration.tsx:100-103 | a code typed with a leading space is stored trimmed but handed to sign-in untrimmed, so the pre-filled sign-in finds no row |
| Flows.CleanCodePrefillSignsIn | src/pages/Login.tsx:56-61 | a code typed without surrounding white space pre-fills a sign-in that finds the registered row with the registered password |
| Flows.SpacedNameNeverSignsIn | src/pages/Login.tsx:91-97 | a consumer whose trimmed first or last name contains a space can never sign in |
| Flows.PlainNamePrefillSignsIn | src/pages/Login.tsx:91-97 | for a consumer with one-word, unpadded names, the pre-filled name and their password match their row, and `.single()` returns it exactly when no other consumer has the same name and password |
| Flows.InfluencerSessionFields | src/pages/Login.tsx:74-80 | the influencer session has type "influencer" and the row's id |
| Flows.InfluencerSessionOpensDashboard | src/pages/InfluencerDashboard.tsx:16-21 | the stored influencer session is accepted by the dashboard, and its fetch filters on the row's own id |
| Flows.ConsumerSessionType | src/pages/Login.tsx:110-115 | the consumer session has type "consumer" |
| Flows.ConsumerSessionLeavesDashboard | src/pages/InfluencerDashboard.tsx:19-24 | a consumer session is refused by the dashboard |
| Flows.AdminSession | src/pages/Admin.tsx:15-34 | admin sign-in followed by the gate authenticates the page; after logout a fresh gate sends the visitor back to /auth and renders nothing |

## Left out

- Rendering, styling, icons and toast descriptions. Only each toast's title is modelled, as a `Toast` value.
- The database client's request chains. They become `Database.Backend` over in-memory tables. The database's own enforcement of unique codes is only a possible insert reply, error code 23505.
- Network failures that throw in the handlers, such as the "Login Failed" path of src/pages/Login.tsx:125-131. A failed lookup is modelled as no row found.
- `console.error` logging.
- Timers and async interleavings. Each async handler runs as one atomic method. The upload interval is a sequence of discrete ticks.
- `Math.random`. Its picks become nondeterministic choices within the stated range, in `GenerateCode` and `OnTick`.
- Floating-point bar widths, the usage percentage and `toLocaleString`. Only the conditions under which they are computed are modelled (`ShowsUsageRate`, the `MaxPoints` bounds).
- Clipboard writes, the Blob/URL download of the export, and `Date.now()` ids. Ids and creation times are parameters.
- The profile picture and other display-only fields.
- src/components/RealtimeIndicator.tsx and src/App.tsx are not part of this model: a realtime connection indicator and a static route table.
- Plaintext password storage and comparison are kept as written. Their security is out of scope.
- `JsString.ToUpper`: upper-cases ASCII letters only. Full Unicode case mapping is not modelled.
- `Json.Parse`: covers flat objects with string and integer members written without spaces, which is all the pages store. Nested values, floats, booleans, null and white space between tokens are not modelled. Neither page wraps `JSON.parse` in a `catch`. For text `JSON.parse` rejects, the page's effect throws before it changes anything, and the model changes nothing too. Valid JSON outside the subset, such as `5` or an object with a space after a colon, is handled differently. The login page reads such text and still removes `registeredUser`; the dashboard navigates to / or fetches. The model treats it as unreadable: `Login.LoginPage.OnMount` leaves the store and form unchanged, and `InfluencerDashboard.CheckSession` returns `Unreadable`, so there is no navigation.
- `Database.AgeColumn`: reads age as `Decimal.ParseLeadingInt`. That reads leading white space, an optional sign ("+" or "-") and decimal digits, as `parseInt` does. Text with no digits gives no number, matching `parseInt`'s NaN, which is stored as null. A "0x" prefix differs: the model reads it as 0, while `parseInt` reads the rest as hexadecimal ("0x1A" is 26).
- `InfluencerDashboard.SessionId`: a numeric `id` is written as its decimal numeral. How the query builder turns other values into filter text is not modelled, and neither is how the database answers a filter on the text "undefined". The fetch is modelled as a lookup of that text among the rows' ids.
- `Login.Prefill`: a stored record whose `code` or `name` is missing or not a string leaves the identifier as it was. The page would assign `undefined`.
- `ProductCodeManagement.ProductCodePanel.HandleFileUpload`: requires that no upload is running. The page disables the input then, so a second upload never starts.
- `ProductCodeManagement.ProductCodePanel.OnTick`: requires an upload to be running, because the interval exists only then.
- The code input on the registration page upper-cases what is typed before the form sees it (src/pages/InfluencerRegistration.tsx:200). `HandleInputChange` takes any value, so the properties hold for every form, typed or not.
