# E-Learn session layer in Dafny

This project models the session and authentication-gating layer of the
E-Learn web client, which every page depends on. It has three parts:

- **Session store** (`app/utils/AuthContext.jsx`). `authReducer` handles three
  actions over the state `{user, loading}`: `LOGIN`, `LOGOUT` and
  `SET_LOADING`. Any other action throws. `LOGIN` and `LOGOUT` also write or
  remove the durable `"user"` record in `localStorage`. `AuthProvider`'s mount
  effect replays that record into the store as a fixed sequence of dispatches.
- **Authenticated fetch wrapper** (`app/utils/FetchClient.jsx`). It merges a
  JSON `Content-Type` default under the caller's headers. On a 401 it navigates
  to the sign-in page and still returns the response.
- **Route guard** (`app/utils/WithAuth.jsx`). With no user it renders nothing
  and pushes `/`. With a user it renders the wrapped page with the same props.

Files and modules:

- `wrappers.dfy` — `Wrappers`: the `Option`, `Result` and `Outcome` types.
- `storage.dfy` — `Storage`: the stored session record (opaque), what a stored entry can be, and
  `JSON.parse(localStorage.getItem(key))`.
- `browser.dfy` — `Browser`: the class `Window`, holding `location` and
  `localStorage`.
- `auth_context.dfy` — `AuthContext`: the pure reducer `Reduce`, the
  start-up sequence `Startup`, and the class `AuthProvider`. Its methods
  `Dispatch` and `Restore` update the state and the window's storage in place.
- `fetch_client.dfy` — `FetchClient`: the request built, and the methods
  `FetchClient` and `SignOutUser`, which update the window's location.
- `with_auth.dfy` — `WithAuth`: the guard decision as a pure function.

The central proved property is that persistence works.
`Synced` says that reloading the page would restore the user the store holds.
Every handled action keeps `Synced` (`ReduceKeepsSynced`), and so does any
sequence of them (`ReduceAllKeepsSynced`, by induction). Start-up from the
initial state establishes it (`StartupSyncs`). Together these give
`ReloadRestoresSession`.

Behaviour of the code that the model keeps as written:

- On the start-up path with no stored user, or when the stored text does not
  parse, the code dispatches `SET_LOADING` again. The comments beside those
  calls say this turns loading off, but `SET_LOADING` sets `loading` to true.
  So this path ends in `{user: null, loading: true}` (`StartupFromInitialState`).
- `signOutUser` clears no stored data, despite its comment. After a 401 the
  `"user"` record survives (`SignOutUser`, `FetchClient.FetchClient`).
- The guard reads `user` only. During the initial `{user: null, loading: true}`
  window it already redirects to `/` (`GuardRedirectsBeforeRestore`).

`fetchClient` attaches no `Authorization` header: it adds only the
content-type default. On a 401 it only assigns `window.location.href`. It
neither clears the session nor notifies the user.

## Model

| member | source | states |
|---|---|---|
| `Storage.ParseItem` | app/utils/AuthContext.jsx:40-41 | An absent key reads as no user; parsing fails exactly on text that is not JSON; it yields a user exactly when a serialized record is stored |
| `Storage.SerializeRoundTrip` | app/utils/AuthContext.jsx:40 | Reading back a record written with `JSON.stringify` gives the same record |
| `AuthContext.Reduce` | app/utils/AuthContext.jsx:8-32 | Throws exactly on an unknown action type, naming it. LOGIN(p) gives `user = p`, `loading = false`, and `"user"` then parses back to p. LOGOUT gives no user, `loading = false`, and the `"user"` key is gone. SET_LOADING sets `loading`, keeps `user` and leaves storage alone. Other state properties and other storage keys are never changed |
| `AuthContext.ReduceAll` | app/utils/AuthContext.jsx:8-32 | Over any sequence of dispatches, the extra state properties and every storage key except `"user"` stay unchanged |
| `AuthContext.ReduceAllFailsIffUnknown` | app/utils/AuthContext.jsx:29-30 | A sequence of dispatches throws if and only if it contains an unknown action, and the error names one of its unknown types |
| `AuthContext.ReduceKeepsSynced` | app/utils/AuthContext.jsx:10-28 | Each handled action keeps the in-memory user equal to the user a reload would restore |
| `AuthContext.ReduceAllKeepsSynced` | app/utils/AuthContext.jsx:8-32 | Any sequence of dispatches that does not throw keeps the in-memory user equal to the persisted one |
| `AuthContext.Startup` | app/utils/AuthContext.jsx:37-50 | The mount effect never changes storage. With a stored record it ends with that user and `loading = false`. Otherwise the user is unchanged and `loading` is true |
| `AuthContext.StartupFromInitialState` | app/utils/AuthContext.jsx:35-48 | From `{user: null, loading: true}`, start-up either restores the record with loading off, or ends exactly in the initial state, still loading |
| `AuthContext.StartupSyncs` | app/utils/AuthContext.jsx:35-50 | After start-up, the store and the persisted record agree |
| `AuthContext.ReloadRestoresSession` | app/utils/AuthContext.jsx:8-50 | After start-up and any non-throwing sequence of dispatches, a page reload restores exactly the current user |
| `AuthContext.LogoutIdempotent` | app/utils/AuthContext.jsx:17-23 | LOGOUT twice gives the same state and storage as LOGOUT once |
| `AuthContext.AuthProvider.constructor` | app/utils/AuthContext.jsx:35 | The provider starts in `{user: null, loading: true}` |
| `AuthContext.AuthProvider.Dispatch` | app/utils/AuthContext.jsx:35 | Dispatching a known action applies the reducer's new state and its storage effect. For an unknown action the reducer throws: `Fail` marks that throw, and neither state nor storage changes |
| `AuthContext.AuthProvider.Restore` | app/utils/AuthContext.jsx:37-50 | The mount effect's dispatches, in order, reach exactly the state and storage that `Startup` describes |
| `FetchClient.BuildRequest` | app/utils/FetchClient.jsx:1-8 | Non-header options pass unchanged. The header keys are `Content-Type` plus the caller's keys. Every caller header keeps its value, so the caller's `Content-Type` wins. Without one, `Content-Type` is `application/json` |
| `FetchClient.DefaultHeaders` | app/utils/FetchClient.jsx:4-6 | With no caller headers, whether absent or empty, the request carries exactly `Content-Type: application/json` |
| `FetchClient.SignOutUser` | app/utils/FetchClient.jsx:18-22 | Sets the location to `/auth/sign-in` and leaves the stored session record untouched |
| `FetchClient.FetchClient` | app/utils/FetchClient.jsx:1-16 | Sends the merged request and returns the received response for every status. A 401 moves the location to `/auth/sign-in`. Every other status leaves the location unchanged. Storage is never touched |
| `WithAuth.Guard` | app/utils/WithAuth.jsx:5-21 | Renders the wrapped page with exactly the incoming props if and only if there is a user. Otherwise it renders nothing and redirects to `/`, not to the sign-in page. No redirect is requested when there is a user |
| `WithAuth.RenderOrRedirect` | app/utils/WithAuth.jsx:10-20 | Exactly one of "render the page" and "redirect" happens |
| `WithAuth.GuardIgnoresLoading` | app/utils/WithAuth.jsx:7-18 | Two states with the same user get the same decision, whatever `loading` is |
| `WithAuth.GuardRedirectsBeforeRestore` | app/utils/WithAuth.jsx:10-18 | In the initial state, which is still loading, the guard renders nothing and redirects to `/` |
| `WithAuth.GuardAfterStartup` | app/utils/WithAuth.jsx:16-20 | After start-up, the page renders exactly when a user record was stored |
| `WithAuth.GuardAfterLogout` | app/utils/WithAuth.jsx:11-18 | After LOGOUT, the guard always renders nothing and redirects to `/` |

## Left out

- `fetch` and the network: the response is a parameter. A rejected `fetch`
  (network failure) propagates out of `fetchClient`, and this is not modelled.
- Stored JSON that parses to a truthy value that is not a record (a number, a
  string, an array) is not distinguished. Every truthy parse result is a
  `Serialized` record.
- `JSON.stringify` and `JSON.parse` are an exact round trip on an abstract
  record, not a string codec.
- `FetchClient.BuildRequest`: header names are object keys compared exactly.
  `fetch` treats header names case-insensitively and merges duplicates, so a
  caller's `content-type` would be combined with the default. Caller headers
  passed as a `Headers` instance, which object spread does not copy, are also
  not modelled.
- AuthContext.AuthProvider.Dispatch: the `Fail` outcome stands for the
  reducer's throw. React runs the reducer during the provider's next render,
  not inside `dispatch`, so the throw escapes at render time and, with no error
  boundary around the provider, unmounts the page. It never returns to the
  caller. No caller dispatches an unknown type. `Store` also cannot represent a
  failing storage call. A `localStorage.setItem` that throws inside the reducer
  (quota exceeded, storage disabled) is not caught. A `getItem` that throws
  during start-up is caught and handled like a parse failure. Neither is
  modelled.
- React scheduling is not modelled. This covers when queued dispatches are
  reduced, batching, and a development-mode second call of the reducer, which
  would repeat its storage write. The model applies each dispatch at once and
  in order.
- `router.push` and the navigation it starts: the guard returns the path it
  pushes.
- Toasts, logging (`console.error`), rendering and styling.
- The page components, which are fetch-and-render glue, and the chatroom
  pages. The real-time message and membership handling is not part of this
  model.
