# Feathers base client: verified model of the client-side state logic

This project models the stateful logic of a Next.js client for a Feathers
server. The client reaches the server through one of two transports: a REST
client and a socket client. The model covers four pieces:

- **Users page** (`src/app/users/page.tsx`). Pagination arithmetic: the
  `$skip` offset, `totalPages = ceil(total / 10)`, the page-number buttons
  and the Previous/Next clamps. Also the component state (`users`, `total`,
  `currentPage`, `isLoading`, `isEditing`, the create and edit forms) and how
  `fetchUsers`, create, update, delete, edit and the page buttons change it.
- **Authentication hook** (`src/hooks/useAuth.ts`). The session state
  (`user`, `token`, `isLoading`) and the `feathers-jwt` storage entry, under
  `initAuth`, `login`, `logout` and the redirect guard.
- **Transport switchboard** (`src/contexts/ClientContext.tsx`). The initial
  selection read from storage, `getClient`, `switchClient` and `useClient`.
- **Bearer-header interceptor** (`src/lib/feathers.ts`). The axios request
  interceptor that adds `Authorization: Bearer <token>`.

How the environment is modelled:

- `localStorage` is a `map<string, string>` held by a `Storage.LocalStorage`
  object. It is shared by the session, the switchboard and the interceptor.
- React state becomes class fields, and each handler is a method with a
  `modifies` clause.
- Every remote call is an `Outcome` parameter: `Ok(value)` or `Err(message)`.
  This covers `authenticate`, `logout`, `find`, `create`, `patch` and `remove`.
- `router.push('/login')` becomes a returned `redirect` flag.
- Toast notifications become a returned sequence of `Toast` values.
- `window.confirm` becomes a `confirmed` parameter.
- The users page reads `authLoading` and `user` from an authentication
  context. That context is not part of this model, so the two values are
  parameters (`authLoading`, `signedIn`).

Modules: `Outcomes` (Option, Outcome, JavaScript truthiness of an optional
string), `Storage`, `Pagination`, `Users`, `Auth`, `ClientContext` and
`RestClient`.

The code keeps a single token key: there is no stored strategy tag and no
provider-specific logout. `logout` does not touch the in-memory `token`.
`useAuth` has no guard against two logins running at once.

## Model

| member | source | states |
|---|---|---|
| Pagination.Skip | src/app/users/page.tsx:49-55 | The offset is a multiple of the page size 10, the page is recovered as offset/10 + 1, and the offset is non-negative exactly when the page is at least 1 |
| Pagination.TotalPages | src/app/users/page.tsx:81 | `ceil(total/10)`: pages*10 covers total, one page fewer does not, and there are no pages exactly when total is 0 |
| Pagination.PageNumbers | src/app/users/page.tsx:84-90 | The loop builds exactly 1..totalPages: length max(0, totalPages), element k is k+1, strictly increasing, membership iff 1 <= p <= totalPages (empty when totalPages <= 0) |
| Pagination.PreviousPage | src/app/users/page.tsx:306 | `max(1, page-1)`: always >= 1, never above a page >= 1, one back from any page above 1 |
| Pagination.PreviousDisabled | src/app/users/page.tsx:307 | Previous is disabled exactly on the page from which it would not move (page 1) |
| Pagination.NextDisabled | src/app/users/page.tsx:325 | Next is disabled exactly on the page from which it would not move (page == totalPages); enabled past the last page it moves backwards |
| Pagination.NextPage | src/app/users/page.tsx:324 | The Next computation as written, `min(totalPages, page+1)`: never past totalPages, one on below the last page, and totalPages otherwise; it has no lower bound |
| Pagination.EmptyListNextGoesToPageZero | src/app/users/page.tsx:324-326 | With total 0 there are 0 pages, Next is enabled on page 1 (1 != 0), moves to page 0, and page 0's offset is -10 |
| Pagination.NextPageInRange | src/app/users/page.tsx:324-326 | Corrected Next: always >= 1, within the pages (or page 1), one on below the last page |
| Pagination.NextPageInRangeSkip | src/app/users/page.tsx:55 | The corrected Next never gives a negative offset, and it equals the as-written Next whenever total > 0 |
| Users.DeleteErrorText | src/app/users/page.tsx:136-138 | A failed delete shows the error's message when it is non-empty, and "Failed to delete user" when it is empty |
| Users.UsersPage.constructor | src/app/users/page.tsx:40-48 | Initial state: no users, total 0, page 1, not loading, not editing, empty forms |
| Users.UsersPage.FetchUsers | src/app/users/page.tsx:51-72 | No query and no change while auth is loading or nobody is signed in. Otherwise it sends limit 10 and skip (page-1)*10. Success replaces users, total and page; failure keeps them and shows "Failed to fetch users". Loading is false afterwards; the forms are untouched |
| Users.UsersPage.RefreshEffect | src/app/users/page.tsx:74-78 | The effect refetches the current page with limit 10; the offset it sends is non-negative exactly when the current page is at least 1, so from page 0 it sends -10 |
| Users.UsersPage.HandleCreate | src/app/users/page.tsx:92-102 | Sends the create form. Failure changes nothing and shows an error. Success resets the form to empty email and password and refetches page 1 |
| Users.UsersPage.HandleUpdate | src/app/users/page.tsx:104-116 | Outside edit mode (falsy isEditing) it does nothing. Otherwise it patches (isEditing, edit email). Failure changes nothing. Success clears isEditing and refetches page 1 |
| Users.UsersPage.HandleDelete | src/app/users/page.tsx:118-142 | A falsy id never reaches remove and only shows "Invalid user ID". A cancelled confirm removes nothing. A failed remove shows its message. A successful remove refetches the current page. Loading is false on every path past the id check |
| Users.UsersPage.StartEdit | src/app/users/page.tsx:144-147 | isEditing becomes the user's id and the edit email becomes the user's email; nothing else changes |
| Users.UsersPage.CancelEdit | src/app/users/page.tsx:269-271 | Leaves edit mode; nothing else changes |
| Users.UsersPage.ClickPrevious | src/app/users/page.tsx:305-307 | Disabled exactly on page 1; otherwise the page becomes max(1, page-1): one back from a page above 1, and forward to 1 from page 0 or below; from a page >= 1 it never increases |
| Users.UsersPage.ClickNext | src/app/users/page.tsx:323-326 | As written: disabled exactly when the page equals totalPages; otherwise the page becomes min(totalPages, page+1), never past totalPages. On an empty list it moves from page 1 to page 0 |
| Users.UsersPage.ClickNextInRange | src/app/users/page.tsx:323-326 | Corrected Next: same disabled test, moves to the clamped Next, and keeps a page >= 1 at >= 1 |
| Users.EmptyListNextSendsNegativeSkip | src/app/users/page.tsx:324-326 | From a fresh page: Next is enabled, the page becomes 0, and the refetch effect then sends limit 10 and skip -10 |
| Users.UsersPage.ClickPage | src/app/users/page.tsx:312-315 | A page-number button selects its page; only the page changes |
| Auth.LoginPayload | src/hooks/useAuth.ts:56-59 | The login payload always has strategy `local` and carries the caller's email and password |
| Auth.LoginIgnoresCallerStrategy | src/hooks/useAuth.ts:56-59 | Whatever strategy the caller supplies, the same payload is sent |
| Auth.Session.constructor | src/hooks/useAuth.ts:15-17 | A new session has no user and no token, and is loading |
| Auth.Session.InitAuth | src/hooks/useAuth.ts:20-47 | With no truthy stored token: no authenticate call, nothing changes, redirect. With one: authenticates with strategy `jwt` and that token. Success takes token and user from the response. Rejection removes the stored token, keeps user, and redirects. Loading is false on every path; after a redirect with no user, the guard fires on every path except /login |
| Auth.Session.Login | src/hooks/useAuth.ts:55-64 | Sends the local payload. Success stores the access token under `feathers-jwt` and sets token and user. Failure propagates the error and changes neither the session nor storage |
| Auth.Session.GuardRedirects | src/hooks/useAuth.ts:49-53 | The guard never redirects from /login, never while loading or signed in, and always redirects elsewhere once loading is over with nobody signed in |
| Auth.Session.Logout | src/hooks/useAuth.ts:66-78 | Whether the server logout succeeds or throws: the stored token is removed, the user is cleared and the caller is redirected. The in-memory token and the loading flag are unchanged. When not loading, the guard (src/hooks/useAuth.ts:49-53) fires exactly off /login |
| ClientContext.InitialClientType | src/contexts/ClientContext.tsx:19-24 | The initial selection is the stored value when a window exists and the value is non-empty. It is not validated. Otherwise it is `rest`. It is never empty |
| ClientContext.GetClient | src/contexts/ClientContext.tsx:26-28 | `rest` maps to the REST client, and every other value maps to the socket client |
| ClientContext.UseClient | src/contexts/ClientContext.tsx:50-55 | Outside a provider: an error with the fixed message. Inside one: the provider's value |
| ClientContext.SwitchIdempotent | src/contexts/ClientContext.tsx:30-35 | Switching twice to the same transport leaves storage as switching once |
| ClientContext.SwitchKeepsOtherKeys | src/contexts/ClientContext.tsx:31-33 | Switching changes no storage key but `clientType`, so `feathers-jwt` is kept. With a window, `clientType` reads back as the new selection |
| ClientContext.ClientProvider.Value | src/contexts/ClientContext.tsx:38-44 | The exposed value carries the current selection, and its client is the REST client exactly when the selection is `rest` |
| ClientContext.ClientProvider.constructor | src/contexts/ClientContext.tsx:19-24 | The provider starts with the initial selection computed from the window and the stored value |
| ClientContext.ClientProvider.SwitchClient | src/contexts/ClientContext.tsx:30-35 | The selection becomes t and the exposed client is getClient(t). Storage gets `clientType = t` when a window exists, with no other key changed |
| RestClient.BearerHeaders | src/lib/feathers.ts:31-38 | With a truthy token: the headers (created when missing) gain `Authorization: Bearer <token>`, and every other entry is kept. With an absent or empty token: the headers are returned unchanged |
| RestClient.BearerIdempotent | src/lib/feathers.ts:35 | Applying the interceptor twice gives the same headers as once |
| RestClient.BearerAfterLogin | src/lib/feathers.ts:32-36 | After login stores a non-empty token under `feathers-jwt`, requests carry `Bearer <that token>` |
| RestClient.NoBearerAfterLogout | src/lib/feathers.ts:32-37 | After logout removes `feathers-jwt`, requests go out with their headers unchanged |
| RestClient.Intercept | src/lib/feathers.ts:31-38 | Updates the request's headers in place to BearerHeaders of the old headers and the stored token. The URL and HTTP method are untouched, and the same object is returned |

## Findings

| source | as written | input that shows it | evidently intended | confidence | as-written member | corrected member |
|---|---|---|---|---|---|---|
| src/app/users/page.tsx:324-326 | Next sets the page to `min(totalPages, page + 1)` and is disabled only when `currentPage === totalPages` | total = 0 and currentPage = 1: totalPages is 0, so Next is enabled. It moves to page 0, and the refetch sends `$skip = -10` | Next never leaves page 1 or the existing pages, so every fetch has a non-negative offset | high (not executed) | Pagination.EmptyListNextGoesToPageZero | Pagination.NextPageInRange |

## Left out

- `formatDate` (src/app/users/page.tsx:22-35): date parsing and locale formatting belong to the JavaScript runtime.
- JSX markup and the form-field `onChange` handlers: the model treats the form contents as state fields and does not follow each keystroke. The Delete button being disabled while loading is not modelled either.
- Console logging and `e.preventDefault()`: no effect on the modelled state.
- Transport internals: the socket.io client (`src/lib/feathers-socket.ts`), reconnection, backoff, the Feathers hook pipeline, and how each client carries credentials. These run inside libraries that are not part of this model.
- The wallet login (`src/lib/privy-auth.ts`) and the providers, chain configuration and type declarations: foreign calls and configuration with no local logic.
- The authentication context that feeds `authLoading` and `user` to the users page is not part of this model. Those values are parameters.
- Async interleaving: each handler is one atomic step with a given network outcome. React effect scheduling, re-entrant calls and concurrent logins are not modelled. Neither is the fact that `handleCreate` and `handleUpdate` do not await their refetch.
- `total` in a find response is a natural number. `Math.ceil` of a negative or fractional total is not modelled.
- The in-memory token written by `initAuth` is not persisted by the hook itself. The authentication client's own token storage is a library detail and is not modelled.
