# inflow06 client auth shim, modelled in Dafny

This project models the client-side authentication layer of the inflow06 web app. The layer is a thin shim over a hosted auth backend (Supabase). It has two parts.

- **Session bridge** (`src/contexts/AuthContext.tsx`). It keeps a local `(user, loading)` pair that mirrors the backend session. It projects the session's user into a local `User`. It applies one navigation rule: a `SIGNED_IN` event with a user, on a page other than `/`, sends the browser to `/`. It also provides four operations:
  - `signUp`, `signIn` and `signInWithGoogle` return the backend's data, or throw with the backend's message or a fixed fallback.
  - `signOut` runs four steps in order: backend sign-out, storage purge, Google token revoke, redirect.
  - `useAuth` fails when there is no provider.
- **Post-redirect reconciler** (`src/lib/authHandler.js`). It first tries to finish a pending OAuth redirect, but only when the SDK offers that call. It then subscribes to auth events. For each event that carries a user, it upserts the user's row and then broadcasts a local `inflow:auth-changed` event with the session. It returns the current session.

Modules:

- `Wrappers`: `Option`, `Result` and `Outcome`. These stand for `null`/`undefined` and for thrown errors.
- `JsString`: `startsWith` and `includes`. `Includes` is defined by recursion and proved equal to "occurs at some index".
- `BrowserStorage`: one Web Storage area (`localStorage` or `sessionStorage`), as a class whose `items` map is updated in place.
- `Session`: the backend's session, user and event shapes, plus `session?.user`.
- `AuthContext`: everything from the session bridge.
  - The projection and the reducers are pure functions on `AuthState`.
  - The `AuthProvider` class holds the mutable state. Its methods are proved equal to those functions.
  - The purge runs in place, with a loop over the key snapshot.
  - `SignOut` records its visible side effects (navigation, alert, revoke request) in an effect log.
  - The delegated operations and `useAuth` are functions from the backend's reply to a `Result`.
- `AuthHandler`: the reconciler. It is a `Reconciler` class with an effect trace. The trace functions spell out what the handler issues for each delivered event.

The backend, the DOM and the network are inputs and logged effects:

- Backend replies are parameters: `Response`, `backendError`, `current`, and the `backend` functions passed to the operations.
- Storage exceptions are the flags `purgeThrows` and `lookupThrows`.
- The SDK capability check is `hasGetSessionFromUrl`. The outcomes of the URL step and of the upsert are `urlStepThrows` and `upsertFailed`.
- `window.location.href = '/'` is modelled as `path := "/"` plus a `Navigate("/")` effect.

Behaviour of the code worth noting:

- The initial session fetch only updates state when the promise resolves; there is no rejection handler. A rejected `getSession()` therefore leaves `loading` at `true`.
- An initial session without a user leaves `user` as it was; it does not clear it.
- The local `email` falls back to `''`. The reconciler's upsert row has no such fallback.
- The only client state is `(user, loading)` plus the current path.

## Model

| member | source | states |
|---|---|---|
| `Session.UserOf` | src/contexts/AuthContext.tsx:14 | `session?.user` is present exactly when the session is non-null and has a user, and is that user |
| `AuthContext.Project` | src/contexts/AuthContext.tsx:28-33 | the local user's id is the session user's id; its email is the session email, and `''` exactly when that email is missing or empty; its username is the metadata username, absent exactly when metadata or its username is absent |
| `AuthContext.ProjectedUser` | src/contexts/AuthContext.tsx:14-19 | a session yields a user exactly when it carries one, and that user is the projection of the session's user |
| `AuthContext.AfterInitialSession` | src/contexts/AuthContext.tsx:13-22 | after the initial session resolves, loading is false and the path is unchanged; the user becomes the projection when the session has a user, and otherwise keeps its previous value (it is not cleared) |
| `AuthContext.AfterEvent` | src/contexts/AuthContext.tsx:26-42 | every auth event leaves loading false; the user is null exactly when the event's session has no user, and otherwise is its projection; the path either stays or becomes `/` |
| `AuthContext.Replay` | src/contexts/AuthContext.tsx:25-43 | events are applied in delivery order: no events change nothing, and a run of events is its prefix followed by the event reducer for its last event |
| `AuthContext.RedirectExactly` | src/contexts/AuthContext.tsx:35-37 | the path changes if and only if the event is SIGNED_IN, the session has a user and the path is not `/`; a user-bearing SIGNED_IN always leaves the path at `/` |
| `AuthContext.EventIdempotent` | src/contexts/AuthContext.tsx:26-42 | handling the same event twice gives the same state as handling it once |
| `AuthContext.ReplayReflectsLastEvent` | src/contexts/AuthContext.tsx:25-43 | after any non-empty run of events from any state, loading is false and the user is the projection of the last event's session |
| `AuthContext.ReplayPath` | src/contexts/AuthContext.tsx:35-37 | events only ever move the path to `/`; after a run containing a user-bearing SIGNED_IN the path is `/` |
| `AuthContext.SignInThenSignOut` | src/contexts/AuthContext.tsx:28-41 | a SIGNED_IN followed by a SIGNED_OUT with no session leaves no user and loading false |
| `AuthContext.AuthProvider.constructor` | src/contexts/AuthContext.tsx:8-9 | the provider starts with user null, loading true and an empty effect log |
| `AuthContext.AuthProvider.InitialSession` | src/contexts/AuthContext.tsx:13-22 | the in-place update of user and loading equals the initial-session reducer |
| `AuthContext.AuthProvider.OnEvent` | src/contexts/AuthContext.tsx:26-42 | the in-place update equals the event reducer; a `Navigate("/")` effect is logged exactly when the navigation rule fires |
| `JsString.Includes` | src/contexts/AuthContext.tsx:91 | `key.includes(t)` holds exactly when t occurs in key at some index |
| `AuthContext.IsAuthKey` | src/contexts/AuthContext.tsx:91 | a key is an auth key exactly when it starts with `sb-` or `supabase` occurs in it at some index |
| `AuthContext.Purged` | src/contexts/AuthContext.tsx:89-101 | a key survives the purge exactly when it neither starts with `sb-` nor contains `supabase`; surviving keys keep their values |
| `AuthContext.PurgeIdempotent` | src/contexts/AuthContext.tsx:89-101 | purging twice equals purging once |
| `AuthContext.PurgeAuthKeys` | src/contexts/AuthContext.tsx:89-94 | the in-place removal loop over a store's keys leaves exactly the purged store |
| `AuthContext.TokenKeyNotAuthKey` | src/contexts/AuthContext.tsx:108-109 | the Google token key is never an auth key |
| `AuthContext.StoredToken` | src/contexts/AuthContext.tsx:108-110 | a token is found exactly when one store holds a non-empty value under the key; a non-empty localStorage value takes precedence over sessionStorage; a found token is non-empty and is one of the stored values |
| `AuthContext.PurgeKeepsToken` | src/contexts/AuthContext.tsx:87-109 | the token lookup after the purge finds the same token as before the purge |
| `AuthContext.AuthProvider.SignOut` | src/contexts/AuthContext.tsx:77-134 | on a backend error: throws with the message or 'Signout failed', raises one alert, leaves both stores and the path untouched, issues no revoke and no redirect; on success: both stores purged (or untouched if the purge throws), a revoke for the token found before the purge unless the lookup throws, then a redirect to `/`, with no error in any case |
| `AuthContext.ErrorMessage` | src/contexts/AuthContext.tsx:83 | the error text is the backend message when it is non-empty, otherwise the fallback, and is never empty when the fallback is not |
| `AuthContext.Delegate` | src/contexts/AuthContext.tsx:58-62 | succeeds exactly when the backend reports no error, then with the backend data; otherwise fails with the message or the fallback |
| `AuthContext.SignUp` | src/contexts/AuthContext.tsx:48-63 | the username is sent as metadata; throws exactly on a backend error, with a non-empty message that is the backend's or 'Signup failed'; otherwise returns the data |
| `AuthContext.SignIn` | src/contexts/AuthContext.tsx:65-75 | throws exactly on a backend error, with the backend's message or 'Login failed'; otherwise returns the data |
| `AuthContext.SignInWithGoogle` | src/contexts/AuthContext.tsx:136-151 | requests provider google, redirect to `origin + "/"`, prompt select_account; throws exactly on a backend error, with the backend's message or 'Google sign-in failed'; otherwise returns the data |
| `AuthContext.SignUpUsernameRoundTrip` | src/contexts/AuthContext.tsx:48-57 | the username in the request `signUp` sends comes back as the local user's username (line 18) for any backend user that keeps the request's metadata |
| `AuthContext.UseAuth` | src/contexts/AuthContext.tsx:169-175 | fails exactly when the context is absent, with the fixed message; otherwise returns the context unchanged |
| `AuthHandler.HandlerTrace` | src/lib/authHandler.js:20-33 | an event without a user issues nothing; an event with a user issues one upsert into `users`, keyed by the user id with the email as given (no `''` fallback), then one dispatch of `inflow:auth-changed` carrying the received session |
| `AuthHandler.UpsertFailureSwallowed` | src/lib/authHandler.js:22-32 | a failed upsert still leads to the same dispatch |
| `AuthHandler.TraceInterleaves` | src/lib/authHandler.js:17-34 | over any run of events the trace is, for each user-bearing event in order (repeats included), exactly its upsert followed by its dispatch |
| `AuthHandler.RepeatedEventUpsertsEachTime` | src/lib/authHandler.js:20-27 | the same user-bearing event delivered twice upserts twice |
| `AuthHandler.UrlStep` | src/lib/authHandler.js:7-9 | `getSessionFromUrl` is called, with storeSession true, exactly when the SDK offers it |
| `AuthHandler.Reconciler.ProcessOAuthRedirectAndSession` | src/lib/authHandler.js:4-38 | the guarded URL step, whose failure is swallowed, then the subscription, registered regardless of that step, then `getSession`, whose session is the result |
| `AuthHandler.Reconciler.OnAuthEvent` | src/lib/authHandler.js:17-34 | the handler, which runs only after the subscription is registered, appends exactly the handler trace of its event |

## Left out

- `console.debug`/`console.error` logging: it has no effect on state.
- The upsert row's `updated_at` timestamp (`new Date().toISOString()`) is not deterministic, so it is abstracted away. `{ returning: 'minimal' }` is not modelled either.
- React machinery is not modelled: `createContext`, `useState`, `useEffect`, provider rendering and the unsubscribe on teardown. `useAuth` is modelled only as the absent-context guard, over an abstract context value.
- Supabase SDK internals (session storage, token refresh, the semantics of `signUp`, `signInWithPassword`, `signInWithOAuth`, `signOut` and `upsert`) are abstract replies supplied as inputs.
- A rejected initial `getSession()` is not modelled. The source has no handler for it, so it changes no state.
- The interleaving of the two independent subscribers, and of async suspensions, is not modelled. Their relative order is unspecified, so each handler is modelled on its own.
- The page reload that a `window.location.href` assignment causes is not modelled. Only the new path and a `Navigate` effect are recorded.
- The alert's DOM details (role, CSS classes, the 5-second removal) collapse into one `Notify` effect with its text.
- The revoke `fetch` is modelled only as the emitted `RevokePost` effect. Its network result is not awaited, and its rejection is caught by `.catch(() => {})`.
- A purge that throws part-way through a store is not modelled. `purgeThrows` models a failure before any key is removed. Both cases are swallowed by the same catch.
- `Object.keys` order: the purge loop visits the key snapshot in an unspecified order. The result does not depend on that order.
- `user_metadata.username` can be any JSON value; it is modelled as an optional string. `error.message` is modelled as an optional string.
- `src/main.tsx`, the bootstrap that renders the app and calls the reconciler once, is not part of this model.
