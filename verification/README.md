# Pizza dashboard: the logic behind the pages, in Dafny

The dashboard is a Next.js app for a pizza-delivery business: a Google
sign-in, a summary page and an orders page over an in-memory order list.
Most of it is markup. This project models the parts that compute or decide
something, and proves what they promise:

- **Orders page** (`OrdersPage`): the tab filter by exact status, the
  case-insensitive search combined with the status filter, the stable sort on
  order id, customer name or date in either direction, the sort-order toggle
  and the per-tab counts.
- **Dashboard page** (`DashboardPage`): the per-status counts, "In Progress",
  the revenue estimate (15 per pizza) and the greeting name.
- **Session store** (`AuthContext`): the `AuthProvider` state (user, loading
  and initialising flags, error, token client) as a class whose methods are
  the start-up, the hydration of the stored "user" entry, the delayed client
  set-up, the provider's callback, `login` and `logout`. Browser storage is a
  `map<string, string>` field. The stored text is produced and read by
  `UserCodec`, a fixed text layout for the user record (not full JSON) with a
  proved round trip. Navigation is the last route pushed.
- **Route guard** (`ProtectedRoute`): loading view, redirect to sign-in, or the
  protected page.
- **Configuration policy** (`Config`): which client id is handed out, and
  whether start-up may proceed. In production without an id the two
  disagree: `validateConfig` rejects the configuration while
  `getGoogleClientId` still returns the non-empty substitute
  "missing-client-id" (`Config.ProductionWithoutIdDisagrees`). In the
  sign-in flow the rejection comes first, so the substitute is never used
  there (`AuthContext.ProductionWithoutIdStops`).
- **Lookup tables and string rules**: the status badge variants and the table
  rows (`OrdersTable`), the sign-in error messages (`AuthError`), the side
  navigation (`DashboardNav`), and the development-only debug panel
  (`DebugInfo`). In the debug panel an unset value is first recorded as
  "undefined". A client id key is therefore never empty and an unset one
  shows "undefined...". The panel's own "undefined" branch for an empty
  client id is never taken.

Shared helpers: `Text` models the JavaScript string operations,
`Seqs` models `filter` and the subsequence relation, and `PizzaTypes` holds
the order and user records.

## Model

| member | source | states |
|---|---|---|
| `OrdersPage.TabFilterSelects` | app/dashboard/orders/page.tsx:39-50 | "all" and any unknown tab keep every order. Each named tab keeps, in the original order, exactly the orders whose status equals its status, with their multiplicities. |
| `OrdersPage.MatchesSearchIff` | app/dashboard/orders/page.tsx:54-57 | An order matches iff the lower-cased query occurs in its lower-cased id, customer name or pizza type. The empty query matches every order. The query's case does not matter. |
| `OrdersPage.SearchFilterSelects` | app/dashboard/orders/page.tsx:53-62 | The filtered list is the order-preserving subsequence of the tab list holding exactly the orders that pass both the search and the status test. With "" and "All Statuses" it is the whole list. With an unset status filter it is empty. |
| `OrdersPage.CompareAntisymmetric` | app/dashboard/orders/page.tsx:65-79 | Swapping the two orders negates the comparator. |
| `OrdersPage.CompareTransitive` | app/dashboard/orders/page.tsx:65-79 | "Not after" under the comparator is transitive, for every key and direction. |
| `OrdersPage.SortPermutes` | app/dashboard/orders/page.tsx:65 | The sorted list is a permutation of the filtered list. |
| `OrdersPage.SortSorted` | app/dashboard/orders/page.tsx:65-79 | Every earlier order compares at most equal to every later one. |
| `OrdersPage.SortedByKey` | app/dashboard/orders/page.tsx:68-78 | Sorted means: for orderId, customerName and orderDate, non-decreasing in that key when ascending and non-increasing when descending. |
| `OrdersPage.SortIsStable` | app/dashboard/orders/page.tsx:65-79 | Orders that compare equal keep their relative order through the sort. |
| `OrdersPage.SortKeepsSorted` | app/dashboard/orders/page.tsx:65-79 | A list already in comparator order comes back unchanged. |
| `OrdersPage.UnknownKeyKeepsOrder` | app/dashboard/orders/page.tsx:66-76 | With no key, or a key other than the three, the sort returns the filtered list unchanged. |
| `OrdersPage.VisibleOrdersSpec` | app/dashboard/orders/page.tsx:38-79 | The shown orders are a permutation of the filtered orders. Each one is an input order with the tab's status that passes the search and the status filter. The list is in comparator order. |
| `OrdersPage.InitialStateShowsAll` | app/dashboard/orders/page.tsx:16-20 | The page as it mounts shows every order, as a permutation of the input sorted by order id ascending. |
| `OrdersPage.ToggleSortOrder` | app/dashboard/orders/page.tsx:81-83 | The toggle flips the direction and changes nothing else in the page state. |
| `OrdersPage.ToggleTwice` | app/dashboard/orders/page.tsx:81-83 | Toggling twice restores the state. |
| `OrdersPage.StatusCountsBounded` | app/dashboard/orders/page.tsx:86-90 | The five status counts add up to at most the number of orders. |
| `OrdersPage.CountTabs` | app/dashboard/orders/page.tsx:86-90 | "All" is the list length. Each tab's count is the length of that tab's filtered list. The five counts sum to at most "All". |
| `OrdersPage.RenderOrdersPage` | app/dashboard/orders/page.tsx:22-36 | While loading, only the loading view is shown. With no user, nothing is shown. Otherwise the page shows the pipeline's orders and the tab counts. |
| `Text.ContainsIffOccurs` | app/dashboard/orders/page.tsx:55-57 | `includes` holds iff the substring occurs at some offset. |
| `Text.LexCompareAntisymmetric` | app/dashboard/orders/page.tsx:71-73 | The string comparison that stands in for `localeCompare` is antisymmetric. |
| `Text.LexCompareTransitive` | app/dashboard/orders/page.tsx:71-73 | The string comparison that stands in for `localeCompare` is transitive. |
| `DashboardPage.RevenueAppend` | app/dashboard/page.tsx:38-41 | Revenue is additive over concatenation of order lists. |
| `DashboardPage.RevenueIsPriceTimesQuantity` | app/dashboard/page.tsx:38-41 | The fold equals 15 × the total quantity, and is 0 for no orders. |
| `DashboardPage.UserName` | app/dashboard/page.tsx:27 | The greeting is the user's name when present and non-empty, otherwise "User". It is never empty. |
| `DashboardPage.ComputeStats` | app/dashboard/page.tsx:29-41 | totalOrders is the list length. The per-status counts are the orders page's tab counts. "In Progress" is pending + preparing and is at most the total. Revenue is 15 × the total quantity. |
| `DashboardPage.RenderDashboard` | app/dashboard/page.tsx:11-27 | While loading, only the loading view is shown. With no user, nothing is shown and no figures are computed. Otherwise the page shows the greeting and the figures. |
| `Config.GetGoogleClientId` | lib/config.ts:9-26 | Returns the configured id when it is set. With no id, returns the mock id in development and "missing-client-id" otherwise. Never returns "". |
| `Config.ValidateConfig` | lib/config.ts:29-50 | Passes in development whatever the id. Outside development, passes iff the id is set. |
| `Config.ModesExclusive` | lib/config.ts:4-5 | Development and production are never both true. |
| `Config.ProductionWithoutIdDisagrees` | lib/config.ts:24-47 | In production with no id, validation fails while a non-empty substitute id is still returned. |
| `Config.ValidConfigHasUsableId` | lib/config.ts:9-50 | A configuration that passes gets either the configured id or, in development, the mock id. |
| `UserCodec.DecodeEncode` | contexts/auth-context.tsx:47-68 | Parsing the stored text of a user gives back that user. |
| `AuthContext.Hydrate` | contexts/auth-context.tsx:44-52 | Hydration only ever removes the "user" entry. Afterwards no malformed entry remains. The user is what a remaining non-empty entry decodes to. A malformed non-empty entry is purged. An absent or empty entry leaves the user and the storage as they were. |
| `AuthContext.AuthProvider.constructor` | contexts/auth-context.tsx:23-27 | The provider mounts with no user, not loading, initialising, no error and no client. |
| `AuthContext.AuthProvider.IsAuthenticated` | contexts/auth-context.tsx:122 | Authenticated exactly when there is a user. In a consistent session an authenticated user is the one the stored "user" entry decodes to, so the in-memory and stored copies agree. |
| `AuthContext.AuthProvider.InitAuth` | contexts/auth-context.tsx:31-90 | A failed config check sets the configuration error and ends initialising, with no script load or hydration. A failed script load sets "Failed to load Google authentication" and ends initialising, with no hydration. Otherwise the stored user is hydrated and the delayed set-up is scheduled. The stored and in-memory user stay consistent. |
| `AuthContext.AuthProvider.CompleteInit` | contexts/auth-context.tsx:55-81 | Keeps the created client, or sets the client-initialisation error when none was created. Initialising always ends. |
| `AuthContext.AuthProvider.OnProviderResult` | contexts/auth-context.tsx:56-73 | Loading ends. A profile becomes the user (picture as image), is stored under "user" and leads to "/dashboard". No profile sets "Failed to authenticate with Google" and leaves the user and the storage unchanged. |
| `AuthContext.AuthProvider.Login` | contexts/auth-context.tsx:92-108 | Clears the error and starts loading. With a client, requests one token; a throwing request ends loading with "Failed to start Google authentication". Without a client, ends loading with "Google authentication not initialized" and requests nothing. |
| `AuthContext.AuthProvider.Logout` | contexts/auth-context.tsx:110-114 | No user, the "user" entry removed, route "/". Nothing else changes. |
| `AuthContext.SignInSurvivesReload` | contexts/auth-context.tsx:44-69 | From any consistent session, after a sign-in a freshly mounted provider on the same storage restores the user just signed in. |
| `AuthContext.SignOutSurvivesReload` | contexts/auth-context.tsx:110-114 | From any consistent session, after a sign-out a freshly mounted provider on the same storage restores no user, whatever the configuration and whether the script loads. |
| `AuthContext.HydrateStoredText` | contexts/auth-context.tsx:44-52 | A stored entry that decodes becomes the user. A malformed one restores no user and is removed. An empty one is skipped and kept. |
| `AuthContext.LoginBeforeInit` | contexts/auth-context.tsx:92-107 | Logging in before a client exists ends with "not initialized", not loading, and no token request. |
| `AuthContext.ProductionWithoutIdStops` | contexts/auth-context.tsx:35-39 | In production without an id, start-up ends with the configuration error. Nothing is loaded and no user is restored. |
| `ProtectedRoute.Guard` | components/protected-route.tsx:14-38 | Initialising: loading view, no redirect. Initialised without a user: nothing rendered, redirect to "/auth/signin". Children are rendered exactly when initialised with a user. A redirect happens exactly when initialised without a user. |
| `ProtectedRoute.NeverRendersAndRedirects` | components/protected-route.tsx:14-38 | No state both renders the children and redirects. |
| `ProtectedRoute.LogoutLeadsToSignIn` | components/protected-route.tsx:15-17 | After a sign-out of an initialised session, the guard renders nothing and redirects to sign-in. |
| `OrdersTable.BadgeVariant` | components/pizza-orders-table.tsx:21-36 | Pending → secondary, Preparing → warning, Out for Delivery → info, Delivered → success, Cancelled → destructive. The variant is "outline" iff the status is none of the five. |
| `OrdersTable.BadgeVariantsDistinct` | components/pizza-orders-table.tsx:21-36 | The five recognised statuses get five distinct variants. |
| `OrdersTable.Rows` | components/pizza-orders-table.tsx:53-61 | No orders give exactly one "No orders found." row. Otherwise there is one row per order, in input order, each with its badge variant. |
| `AuthError.ErrorMessage` | app/auth/error/page.tsx:10-26 | Each of the six codes gets its message. The default message is shown iff the parameter is absent or not exactly one of the six codes. |
| `AuthError.KnownMessagesDistinct` | app/auth/error/page.tsx:14-26 | Different known codes give different messages. |
| `DashboardNav.RenderNav` | components/dashboard-nav.tsx:55-81 | No user renders nothing. Otherwise there is one link per item in table order. A link is active iff the pathname equals its href. Disabled items link to "#", enabled ones to their href. |
| `DashboardNav.OnlyTwoEnabled` | components/dashboard-nav.tsx:18-53 | Exactly "/dashboard" and "/dashboard/orders" are enabled. |
| `DashboardNav.AtMostOneActive` | components/dashboard-nav.tsx:18-61 | At most one link is active for any pathname. |
| `DebugInfo.EnvValue` | components/debug-info.tsx:19 | A recorded value is never empty. A set, non-empty variable is recorded as itself. Otherwise it is recorded as "undefined". |
| `DebugInfo.PublicEnv` | components/debug-info.tsx:15-23 | The listed keys are exactly the keys starting with "NEXT_PUBLIC". Each maps to its recorded value. |
| `DebugInfo.CollectEnvVars` | components/debug-info.tsx:15-23 | The key-by-key accumulation builds exactly the public-variable dictionary. |
| `DebugInfo.ShownValue` | components/debug-info.tsx:19-43 | Keys without "CLIENT_ID" show their value verbatim. "CLIENT_ID" keys show at most 20 leading characters followed by "...". An unset one shows "undefined...". |
| `DebugInfo.RenderDebug` | components/debug-info.tsx:11-50 | Nothing outside development. The entries are shown only while the panel is open. The open panel lists every recorded key, each with its display text (client ids cut to 20 characters plus "..."). |
| `DebugInfo.DebugToggle.Press` | components/debug-info.tsx:27 | Pressing flips the panel state, so two presses restore it. |

## Left out

- Network, the provider's script and its token client (lib/google-auth.ts) are not modelled. Their outcomes are inputs to `AuthProvider`: whether the script loads, the client created or not, whether `requestAccessToken` throws, and the profile or null handed to the callback.
- Timing and scheduling are not modelled: the 500 ms timer, `async`/`await`, `useEffect` and React's batching of state updates. Each step is one method call, and the timer is the `timerPending` flag that `CompleteInit` consumes.
- The router is a recorded last route. `localStorage` is a map field. Logging to the console is not modelled.
- `UserCodec.Decode`: the stored text is this model's own fixed layout, not JSON. `Decode` reads only what `Encode` writes: no keys, no whitespace, the four fields in the order id, name, email, image, all present. Text that `JSON.parse` would accept in any other layout is treated as malformed and purged, although the source restores it. This covers other JSON values ("null", "42"), objects with spaces or keys in another order, and objects with the optional fields missing. Escapes are read differently too: a backslash takes the next character literally, so `\n` reads as `n` and `\u0041` as `u0041`.
- `UserCodec.Encode`: escapes only quotes and backslashes, not control characters as `JSON.stringify` does. The round trip holds for every user all the same.
- `Text.LexCompare`: `localeCompare` collation is locale-dependent. It is replaced by code-unit lexicographic order, a total order like the one the sort needs.
- `Text.ToLower`: only the ASCII letters are folded, not the full Unicode case mapping of `toLowerCase`.
- Order dates are integer timestamps. Parsing dates with `new Date` (including invalid dates) and `date-fns` formatting in the table are not modelled.
- Revenue is an exact integer. `toFixed(2)` formatting is not modelled, and quantities are integers, not floating-point numbers.
- `DebugInfo.RenderDebug`: the panel's entries are a map, so the display order of `Object.entries` is not captured.
- Markup, styling, animation, the theme scripts, the landing page and the sign-in page are not modelled: they hold no logic beyond rendering.
