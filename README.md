# Palm-oil plantation dashboard: the client-side logic

This project is a Dafny model of the browser front end of a small plantation-management
dashboard. Admins manage users, consultants manage seeds and recommendations, and clients
(farmers) manage their lands and read their notifications. The model covers the logic the pages
run between the user and the backend. It leaves out what they draw.

- **Notification queue** (`Notifications`): a newest-first list of at most six toasts.
  It is a class whose `Push`, `Remove` and `Clear` replace the list.
- **Session store** (`Auth`): the signed-in user record, or null.
- **Backend origin** (`Constants`): the build variable or the local default, with one trailing
  slash removed.
- **Fetch wrapper** (`SafeFetch`):
  - It adds the stored bearer token and defaults `credentials` to `include`.
  - It classifies a response through three ordered checks: a JSON content type, a parsable
    body, then a 2xx status. Each failure has its own message.
  - The network, `localStorage` and `JSON.parse` are inputs to it.
- **Envelope unwrapping** (`Envelope`): how the pages turn the backend's
  `{ success, data, error }` into a value or an error. List requests use `data ?? []`.
  Create requests use `data ?? json`. Logout uses `json ?? true`. Deletes return `true`.
  The success-checking requests use `RequireSuccess`.
- **Route guard** (`RootRoute`): `beforeLoad` stores the `/me` answer, then picks one of four
  outcomes: no redirect, the role's home, `/`, or `/login`. `Guard` is its full decision table.
  `BeforeLoad` is the imperative version that updates the store.
- **Forms**: the login, create-land, add-recommendation, add-seed and create-user pages.
  - The first four are classes over the page's state: `Login.LoginForm`,
    `LandCreate.LandCreateForm`, `RecommendationCreate.RecCreateForm` and
    `SeedCreate.SeedCreateForm`.
  - Each class's `HandleSubmit` either records the validation errors or returns the payload to send.
  - A pure function states the errors or the payload. Where the page builds its error map step by
    step, the method is proved equal to that function.
  - The create-user page has no validation of its own. It is modelled by the payload it sends
    (`CreateUser.NewUserFor`), the unwrapping of the answer (`CreateUser.CreateUserResult`), and
    its `OnSuccess` and `OnError` methods.
- **Dashboards**:
  - `Dashboard` holds what the three dashboards share: the view precedence of a list tab
    (loading, then error, then empty, then table), the tab labels, and the logout outcome.
  - `AdminDashboard`: role names and the static roles table.
  - `ConsultantDashboard`: seed names and the create button of each tab.
  - `ClientDashboard`: the notifications request that treats "not found" as an empty list, when
    the queries run, and the numbered notification rows.

Values from the backend are modelled as `Js.Json` (null, booleans, integers, strings, arrays,
objects). Reading `x?.k` is `Js.Get`, where None stands for `undefined`. A promise that resolves
or rejects is a `Js.Result`, and its error is a `Js.Thrown` (`Error` or `TypeError` with a
message). Navigation and redirects are returned as values. Clocks, the network and `Number()` are
parameters.

The model reproduces three inconsistencies in the program as written. Each is stated as a lemma:

- **Role names disagree**: the users list names role 2 "Consultant" and role 3 "Farmer". The
  static roles tab lists 2 as Farmer and 3 as Consultant. See `AdminDashboard.StaticRolesDisagree`.
  The create-user form agrees with the users list (`AdminDashboard.RoleNamesMatchCreateForm`).
- **The guard has no farmer home**: login sends a `farmer` to `/client`, but the guard's role map
  has no `farmer` entry. Such a session can open any page, the admin pages included, and is sent
  from `/login` to `/`. See `Login.FarmerUnmappedInGuard`.
- **A NaN land size passes**: `Number()` of a non-numeric size is NaN, and `NaN <= 0` is false, so
  the size check lets it through. See `LandCreate.NaNSizeAccepted`.

## Model

| member | source | states |
|---|---|---|
| Notifications.Pushed | src/stores/useNotificationStore.ts:20 | after a push the list has min(old length + 1, 6) entries, the new entry first, then the old entries in order with only the oldest dropped |
| Notifications.Without | src/stores/useNotificationStore.ts:21 | the filtered list is never longer, and every survivor comes from the list and carries another id |
| Notifications.WithoutMembers | src/stores/useNotificationStore.ts:21 | an entry survives `remove(id)` exactly when it was in the list and its id differs; same-millisecond duplicates go together |
| Notifications.WithoutAbsent | src/stores/useNotificationStore.ts:21 | removing an id no entry carries leaves the list unchanged |
| Notifications.WithoutConcat | src/stores/useNotificationStore.ts:21 | `remove` filters each part of a list separately and keeps the order of the survivors |
| Notifications.WithoutTwice | src/stores/useNotificationStore.ts:21 | `remove` is idempotent |
| Notifications.DistinctTimesDistinctIds | src/stores/useNotificationStore.ts:20 | entries pushed at different milliseconds get different ids `String(now)` |
| Notifications.NotificationStore.constructor | src/stores/useNotificationStore.ts:18 | the store starts with no entries |
| Notifications.NotificationStore.Push | src/stores/useNotificationStore.ts:19-20 | the list becomes the pushed list for the entry stamped with `String(now)`; at most six entries remain |
| Notifications.NotificationStore.Remove | src/stores/useNotificationStore.ts:21 | the list becomes the old list without the id |
| Notifications.NotificationStore.Clear | src/stores/useNotificationStore.ts:22 | the list becomes empty from any state, so a second clear changes nothing |
| Auth.AuthStore.constructor | src/stores/useAuthStore.ts:16 | the user starts as null |
| Auth.AuthStore.SetUser | src/stores/useAuthStore.ts:17 | the user becomes exactly the given value, null included |
| Auth.AuthStore.ClearUser | src/stores/useAuthStore.ts:18 | the user becomes null from any state (idempotent, and set-then-clear ends in null) |
| Constants.ApiUrl | src/constants.ts:2-3 | an unset or empty variable gives `http://localhost:8000`; a value ending in `/` loses that one character; any other value is kept |
| Constants.DoubleSlashKeepsOne | src/constants.ts:3 | a value ending in two slashes keeps one |
| Constants.ApiUrlIsPrefix | src/constants.ts:3 | the origin is a prefix of the configured value, at most one character shorter |
| Text.TrimEmptyIffBlank | src/routes/login.tsx:78-79 | `!s.trim()` holds exactly when every character is white space or a line terminator |
| Text.Lower | src/routes/__root.tsx:35 | lower-casing keeps the length and maps each character |
| Text.Capitalize | src/routes/admin/index.tsx:277 | a tab label is shown with its first character upper-cased, and the rest and the length are kept; the same at consultant/index.tsx:358 and client/index.tsx:320 |
| Text.CapitalizeIdempotent | src/routes/admin/index.tsx:277 | a label that is already capitalised is shown unchanged |
| Text.NatToStringRoundTrip | src/stores/useNotificationStore.ts:20 | `String(n)` is a non-empty digit string that reads back as `n` |
| Text.ContainsTransitive | src/routes/client/index.tsx:35 | a text containing `p` contains everything `p` contains |
| SafeFetch.BuildHeaders | src/lib/safeFetch.ts:3-8 | `Authorization: Bearer <token>` is set, over any caller value, exactly when a non-empty token is stored; every other header passes through unchanged and none is added |
| SafeFetch.RequestFor | src/lib/safeFetch.ts:14-18 | `credentials` is the caller's value or else `include`; the headers are always the built ones; method and body are the caller's |
| SafeFetch.Classify | src/lib/safeFetch.ts:19-42 | content type first (`Non-JSON response (status S): ` plus a 300-character preview), then parsing (`Invalid JSON response (status S)`), then the status (the body's `error` when it is not nullish, else `HTTP S`); every 2xx JSON body is returned unchanged, whatever its `success` field says, and only those are |
| SafeFetch.FetchJson | src/lib/safeFetch.ts:1-43 | the request carries the caller's URL, method and body and the credentials default; its headers are the caller's with `Authorization: Bearer <token>` set for a non-empty token, every other header keeping its caller value, and exactly the caller's headers without a token; a network failure rejects with its TypeError, and a response is classified |
| SafeFetch.NonJsonPreviewBounded | src/lib/safeFetch.ts:23-27 | a response without a content type fails before any status check, with a message of bounded length |
| Envelope.DataOr | src/routes/__root.tsx:28 | `json?.data ?? fallback` is the fallback exactly when `data` is null or undefined |
| Envelope.ListResult | src/routes/admin/index.tsx:15-18 | `getUsers` gives `data`, or `[]` when it is null or undefined, and never null; a rejection passes through; the same in `getSeeds`, `getRecommendations`, `getUserLands` and the recommendation form's seed list |
| Envelope.CreatedResult | src/routes/client/land/create.tsx:27 | `createLandRequest` gives `data` when it is not nullish, else the whole reply; a rejection passes through; the same in `createRecRequest` and `createSeedRequest` |
| Envelope.LogoutResult | src/routes/admin/index.tsx:25-28 | logout gives the reply, or exactly `true` for a null reply; a rejection passes through; the same on the consultant and client dashboards |
| Envelope.DeleteResult | src/routes/admin/index.tsx:20-23 | a delete that resolves gives `true`; a rejection passes through; the same for seeds, recommendations and lands |
| Envelope.RequireSuccess | src/routes/login.tsx:27-28 | the reply succeeds exactly when `success` is truthy, with `data` as its value; otherwise an Error with the truthy `error` text or the fallback |
| RootRoute.RoleBasePath | src/routes/__root.tsx:16-20 | only `admin`, `consultant` and `client` have a home, `/` followed by the role |
| RootRoute.Guard | src/routes/__root.tsx:33-54 | the full decision table: the stored user; on `/login` the role's home or `/`; elsewhere the home when the path is outside it; signed out, stay only on `/login` or `/register`, else go to `/login` |
| RootRoute.BeforeLoad | src/routes/__root.tsx:22-55 | sets the user before reading the role, clears it when the `try` block fails, and returns the redirect the decision table gives |
| RootRoute.NullSessionSignedOut | src/routes/__root.tsx:28-35 | a `/me` answer without data (null, where reading `res.role` throws) counts as signed out |
| RootRoute.GuardSettles | src/routes/__root.tsx:38-54 | following a redirect with the same session lands on a page the guard lets load |
| Login.LoginResult | src/routes/login.tsx:19-38 | a falsy `success` fails with the backend's text or `Login failed`; a TypeError mentioning `fetch` becomes the connection message naming the origin; other errors are rethrown unchanged |
| Login.ValidationErrors | src/routes/login.tsx:77-79 | an error for each of username and password exactly when it is blank after trimming, with the page's messages, and no other key |
| Login.LoginRoute | src/routes/login.tsx:65-67 | `admin` to `/admin`, `client` or `farmer` to `/client`, `consultant` to `/consultant`, anything else nowhere |
| Login.OnSuccess | src/routes/login.tsx:59-68 | reads the role first: a missing user or a truthy non-string role throws before storing; a falsy role (missing, null, `false`, 0) reads as `''`, so the user is stored and the page does not navigate; otherwise the user is stored and the page navigates by role; the selected card plays no part |
| Login.LoginAgreesWithGuard | src/routes/login.tsx:65-67 | for admin, client and consultant, login and the guard choose the same home |
| Login.FarmerUnmappedInGuard | src/routes/login.tsx:66 | a farmer is sent to `/client` by login, but the guard has no farmer home: it lets the session stay on `/admin` and sends it from `/login` to `/` |
| Login.LoginForm.constructor | src/routes/login.tsx:45-53 | no role selected, empty fields, no errors |
| Login.LoginForm.SelectRole | src/routes/login.tsx:160-163 | selects the card and clears only the role and server errors |
| Login.LoginForm.EditUsername | src/routes/login.tsx:216-219 | sets the username and clears only its error |
| Login.LoginForm.EditPassword | src/routes/login.tsx:249-252 | sets the password and clears only its error |
| Login.LoginForm.HandleSubmit | src/routes/login.tsx:75-86 | sends the untrimmed credentials exactly when neither is blank; otherwise the errors become the validation errors and nothing is sent |
| Login.LoginForm.OnError | src/routes/login.tsx:69-72 | the message becomes the only error and is pushed as a `Login failed` error toast |
| LandCreate.LandErrors | src/routes/client/land/create.tsx:55-59 | each of the three errors is present exactly when its check fails: a blank name, an empty or non-positive size, a session without a truthy id |
| LandCreate.NaNSizeAccepted | src/routes/client/land/create.tsx:58 | a non-empty size that `Number()` reads as NaN passes the size check |
| LandCreate.LandCreateForm.constructor | src/routes/client/land/create.tsx:34-40 | empty fields, no errors |
| LandCreate.LandCreateForm.EditLocationName | src/routes/client/land/create.tsx:106 | sets the location name |
| LandCreate.LandCreateForm.EditSize | src/routes/client/land/create.tsx:119 | sets the size text |
| LandCreate.LandCreateForm.HandleSubmit | src/routes/client/land/create.tsx:52-71 | sends the untrimmed name, `Number(size)` and the session's id exactly when all checks pass; otherwise all failing checks replace the errors and nothing is sent |
| LandCreate.LandCreateForm.OnError | src/routes/client/land/create.tsx:47-49 | the message becomes the only (server) error |
| RecommendationCreate.PayloadFor | src/routes/consultant/recommendation/create.tsx:50-55 | keeps `name` and renames `desc`, `type` and `Number(seedId)` to the backend's fields |
| RecommendationCreate.WhitespaceCountsAsFilled | src/routes/consultant/recommendation/create.tsx:48 | any fields that are blank but not empty pass the check, though each trims to nothing, since nothing is trimmed |
| RecommendationCreate.RecCreateForm.constructor | src/routes/consultant/recommendation/create.tsx:29-33 | empty fields, type `Watering` (one of the offered types), no error |
| RecommendationCreate.RecCreateForm.EditName | src/routes/consultant/recommendation/create.tsx:73 | sets the name |
| RecommendationCreate.RecCreateForm.EditDescription | src/routes/consultant/recommendation/create.tsx:78 | sets the description |
| RecommendationCreate.RecCreateForm.SelectType | src/routes/consultant/recommendation/create.tsx:83-86 | sets the type to one of Watering, Fertilization, PestControl |
| RecommendationCreate.RecCreateForm.SelectSeed | src/routes/consultant/recommendation/create.tsx:92 | sets the seed id text |
| RecommendationCreate.RecCreateForm.HandleSubmit | src/routes/consultant/recommendation/create.tsx:46-56 | sends the payload exactly when no field is empty; otherwise the error is `All fields required` and nothing is sent |
| RecommendationCreate.RecCreateForm.OnError | src/routes/consultant/recommendation/create.tsx:43 | the message becomes the error |
| SeedCreate.SeedCreateForm.constructor | src/routes/consultant/seed/create.tsx:25-26 | empty name, empty error |
| SeedCreate.SeedCreateForm.EditName | src/routes/consultant/seed/create.tsx:64 | sets the name |
| SeedCreate.SeedCreateForm.HandleSubmit | src/routes/consultant/seed/create.tsx:37-41 | sends `{ name }` untrimmed exactly when the name is not blank; otherwise the error is `Name required` |
| SeedCreate.SeedCreateForm.OnError | src/routes/consultant/seed/create.tsx:34 | the message becomes the error |
| CreateUser.CreateUserResult | src/routes/admin/create-user.tsx:16-32 | the reply is checked by `RequireSuccess`: a falsy `success` fails with the truthy `error` text or else `Failed to create user`; otherwise `data`; a rejection passes through |
| CreateUser.UnsuccessfulEnvelopeFails | src/routes/admin/create-user.tsx:27-29 | `success: false` without an `error` fails with the page's fallback text |
| CreateUser.NewUserFor | src/routes/admin/create-user.tsx:61-69 | no validation: username, password and `Number(userRoleId)` are always sent |
| CreateUser.OnSuccess | src/routes/admin/create-user.tsx:44-51 | pushes the `success` toast and opens `/admin` |
| CreateUser.OnError | src/routes/admin/create-user.tsx:52-58 | pushes a `Create failed` error toast carrying the message |
| Dashboard.ListView | src/routes/admin/index.tsx:93-116 | exactly one outcome: the spinner exactly while loading, else the error box exactly when there is an error (with its message), then "nothing here" for truthy data of length 0, then a table with one row per element when the data is an array without null elements; anything else throws (`.map` on a non-array, or a row key read from a null element). These hold for records whose displayed cells are scalars (see "## Left out"). The same if-chain on the consultant (recommendations, seeds) and client (lands, notifications) tabs |
| Dashboard.SettledListView | src/routes/admin/index.tsx:17 | a settled list request without data shows the empty notice, and one with an array of non-null elements shows the empty notice or the table, so the page's own code does not throw (records whose displayed cells are scalars; see "## Left out") |
| Dashboard.NullRowThrows | src/routes/admin/index.tsx:128-129 | a list holding a null element throws when its row reads `id`; the same at consultant/index.tsx:158, 244 and client/index.tsx:154, 237 |
| Dashboard.UndefinedDataThrows | src/routes/client/index.tsx:127-141 | undefined data while neither loading nor failed reaches `.map` and throws |
| Dashboard.AfterLogout | src/routes/admin/index.tsx:74-78 | the user is cleared, then `/login` opens; the same on the consultant and client dashboards |
| AdminDashboard.RoleName | src/routes/admin/index.tsx:30-41 | the number 1 is Admin, 2 Consultant, 3 Farmer (each in both directions) and everything else, the text "2" included, is Unknown |
| AdminDashboard.RoleNamesMatchCreateForm | src/routes/admin/create-user.tsx:104-107 | each create-form option's value is its position plus one, and the users list names it with the option's label |
| AdminDashboard.StaticRolesDisagree | src/routes/admin/index.tsx:183-203 | the static table agrees with the role names for id 1 and swaps ids 2 and 3 |
| AdminDashboard.CreateButton | src/routes/admin/index.tsx:257-264 | the create-user button is shown exactly on the users tab |
| AdminDashboard.OpensWithCreateButton | src/routes/admin/index.tsx:44 | the page opens on the users tab, so the button is shown |
| AdminDashboard.RolesTabLabel | src/routes/admin/index.tsx:84-88 | the `user roles` tab reads `User roles` |
| ConsultantDashboard.FirstWithId | src/routes/consultant/index.tsx:114 | the found index holds the id and no earlier seed does; no index means no seed has it |
| ConsultantDashboard.SeedName | src/routes/consultant/index.tsx:112-116 | `Loading...` before the seeds arrive, then the first matching seed's name, else `Unknown (ID: <id>)` |
| ConsultantDashboard.FirstMatchStable | src/routes/consultant/index.tsx:114 | seeds added after the first match do not change it |
| ConsultantDashboard.DuplicateIdShowsFirst | src/routes/consultant/index.tsx:114-115 | with two seeds of one id, the earlier one's name is shown |
| ConsultantDashboard.CreateButton | src/routes/consultant/index.tsx:328-343 | the seed tab offers Create Seed, the recommendation tab Create Recommendation, every other tab nothing |
| ConsultantDashboard.CreateButtonPerTab | src/routes/consultant/index.tsx:105-109 | every tab but profile has a button, and it leads to that tab's own form |
| ClientDashboard.GetNotifications | src/routes/client/index.tsx:29-40 | a resolved reply unwraps like the lands list; a failure whose message contains `status 404`, `Cannot GET` or `404` becomes `[]`; any other failure is rethrown |
| ClientDashboard.StatusPhraseSubsumed | src/routes/client/index.tsx:35 | the `status 404` test adds nothing to the `404` test |
| ClientDashboard.EmptyMessageRethrown | src/routes/client/index.tsx:34-38 | a failure with an empty message is rethrown |
| ClientDashboard.NotFoundPageIsEmpty | src/routes/client/index.tsx:33-37 | a non-JSON 404 page reaches the page as a message with `404` and is shown as no notifications |
| ClientDashboard.ServerErrorMentioning404IsEmpty | src/routes/client/index.tsx:35 | a 500 reply whose own error text mentions `404` is swallowed as well |
| ClientDashboard.QueriesNeedTruthyId | src/routes/client/index.tsx:65 | the lands and notifications queries run exactly for a session record with a truthy `id`; a null user, a missing id, or an id of null, false, 0 or "" keeps them off (the same at line 77) |
| ClientDashboard.NumberedFromPositions | src/routes/client/index.tsx:236-238 | the i-th row carries number first + i and the i-th record's description |
| ClientDashboard.NotificationRows | src/routes/client/index.tsx:236-238 | one row per record, in list order, numbered from 1 |
| ClientDashboard.NotificationTableRows | src/routes/client/index.tsx:225-238 | when the notifications tab shows a table, its rows are the query's records, none null, numbered from 1 with each record's description |
| ClientDashboard.AddLandButton | src/routes/client/index.tsx:299-306 | the add-land button is shown exactly on the lands tab |
| ClientDashboard.OpensWithAddLand | src/routes/client/index.tsx:49 | the page opens on the lands tab, where the button is shown |

## Left out

- Rendering: JSX, CSS classes, icons, the header, the toast list, the back button and the card frame are not modelled. So are the index route and the other detail pages. They draw data and hold no decision of their own.
- Browser and library calls: `fetch`, `Headers`, `localStorage` and `JSON.parse` are inputs. The response is modelled by its status, content type, body text and parse result. Header names are kept in lower case, as `Headers` keeps them.
- TanStack Query and Router: caching (`ensureQueryData`, `setQueryData`, `invalidateQueries`, `removeQueries`), the mutations' pending flags and the `navigate`/`redirect` machinery are library code. Redirects and navigation targets are returned as values, and a query's state is an input to the view.
- Login.OnSuccess: returns `CallbackThrew` where the callback throws. The mutation library then passes that error to `onError`, which shows it as the server error with a `Login failed` toast (`Login.LoginForm.OnError`). That hand-over is library behaviour and is not modelled.
- `Date.now()` is a parameter of `Push`; `import.meta.env.VITE_API_URL` is a parameter of `ApiUrl`.
- `Number()` and floating point: numbers in backend JSON are integers. `Number()` of form text is an abstract parameter yielding a real or NaN. `Js.AtMostZero` is the `<= 0` comparison, false for NaN.
- Case mapping and string length: `toLowerCase`/`toUpperCase` are modelled on ASCII letters only. Strings are sequences of characters, not UTF-16 code units, so the 300-character preview counts characters.
- Prototype keys: `roleBasePaths[role]` is modelled as the three own keys only. A role such as `constructor`, which reads an inherited property of the object, is not modelled.
- Seed records: `getSeedName` is modelled over records with an integer id and a string name. Records of other shapes, and `===` on non-numeric ids, are not modelled.
- The `console.log`/`console.warn` calls in the constants module, `alert`, and the `confirm` before a delete are I/O.
- HTML `required` attributes on form inputs are enforced by the browser before `submit` fires. They are not modelled: each `HandleSubmit` takes the fields as the page's own code sees them.
- Navigation after a successful create (to `/client` or `/consultant`), and the profile tab's display of the user, are not modelled. They are plain navigation and rendering.
- async/await ordering and parallel queries: every operation is modelled as one step.
- Dashboard.ListView: the loading and empty texts differ from page to page and are not modelled; the view only says which of the five outcomes is shown. A table cell that holds an object (a record with an object-valued `username`, `location_name`, `size`, `description`, `name`, `rec_type` or `id`) also makes React's render throw. Cell contents are not modelled, so `Table` and `Dashboard.SettledListView`'s "does not throw" hold only for records whose displayed cells are scalars.
- Login.LoginForm.SelectRole: removes the keys, where the page sets them to `undefined`. Both show no message.
