# Bot dashboard core — a Dafny model

This project models the sequential logic of a single-page dashboard for
building WhatsApp chatbots. The views, the REST calls and the mock pages are
not modelled. Five pieces are:

- **Local bot store** (`LocalBots`, src/utils/localBots.ts). A list of bot
  records kept as one JSON array in `localStorage`. It supports lookup by id,
  `saveBot` (update the first record with the id, else append a new Draft
  record) and `deleteBot` (drop every record with the id).
- **Bot-creation wizard** (`CreateBot`, src/pages/CreateBot.tsx). A step
  counter over nine steps and a form record. Per-step guards enable the Next
  button. There are Next/Previous transitions and a use-case checkbox toggle.
- **Token storage** (`TokenStorage`, src/utils/auth.ts). An access token in
  `localStorage` or `sessionStorage`, with get, set, remove and
  "is authenticated".
- **Authentication context** (`AuthContext`, src/contexts/AuthContext.tsx).
  How `login` and `register` turn a server response into a user or an error,
  when they store a token, what `logout` clears, and the context's
  `getAccessToken`.
- **API URL builder** (`Config`, src/config.ts).

Shared helpers:
- `Wrappers` holds `Option` and `Result`.
- `Seqs` holds `Without`, an order-preserving filter.
- `JsText` holds the JavaScript string semantics the code relies on:
  truthiness, `a || b`, `trim`, `split('@')[0]`, and the decimal form of a
  number in a template literal.

Modelling choices:
- The JSON encoding of storage is assumed to round-trip exactly, so the
  stored array is the Dafny sequence itself.
- `window`/`localStorage` availability is a flag on `LocalBots.Storage`.
- The ISO timestamp and `Date.now()` are parameters of `SaveBot`.
- An absent object key, or a `null`/`undefined` value, is `None`.
- A thrown exception is a `Result.Failure` or an `Attempt` with an error.
  On failure the session is returned unchanged.
- An HTTP response is a value: its status, and its parsed body when
  `response.json()` succeeds.
- A wizard click on a disabled or hidden button is a no-op. This reflects
  the `disabled` bindings on the navigation buttons, since `handleNext`
  does not test the step guard itself.

The store behaves as follows, which a reader might not expect:
- A new record gets the caller's id when one is supplied, and `bot-<ms>`
  only otherwise.
- Identifier uniqueness is not enforced. A millisecond collision, or a list
  that already holds duplicates, breaks it. Uniqueness is therefore proved
  as preserved, given that a generated id is fresh
  (`LocalBots.SavePreservesUniqueIds`).
- `getBot` returns the first match.
- The create branch does not set `updated_at`. It copies whatever the
  caller passed.
- `getBots` degrades to an empty list only when there is no window or
  nothing is stored.
- `saveBot` with no window always throws at its write. `deleteBot` with no
  window finds nothing, writes nothing and returns false.

## Model

| member | source | states |
|---|---|---|
| `Seqs.Without` | src/utils/localBots.ts:65 | the filter keeps exactly the elements whose key differs, never grows, and keeps the length exactly when nothing matches |
| `Seqs.WithoutConcat` | src/utils/localBots.ts:65 | filtering a concatenation is the concatenation of the filtered parts, so survivors keep their relative order |
| `Seqs.WithoutIdempotent` | src/pages/CreateBot.tsx:117 | filtering twice by the same key is filtering once |
| `JsText.TrimEmptyIffBlank` | src/pages/CreateBot.tsx:124 | `s.trim() !== ''` holds exactly when some character of `s` is not JavaScript whitespace |
| `JsText.TrimStart` | src/pages/CreateBot.tsx:124 | removes only leading whitespace: the result is a suffix, every dropped character is whitespace, and it does not start with whitespace |
| `JsText.TrimEnd` | src/pages/CreateBot.tsx:124 | removes only trailing whitespace: the result is a prefix, every dropped character is whitespace, and it does not end with whitespace |
| `JsText.Trim` | src/pages/CreateBot.tsx:124 | `trim` yields the slice of `s` between its leading and its trailing whitespace: what it drops is all whitespace, and a non-empty result neither starts nor ends with whitespace |
| `JsText.TrimIsSlice` | src/pages/CreateBot.tsx:124 | the trimmed string is a contiguous slice of `s` with only whitespace before and after it |
| `JsText.Or` | src/contexts/AuthContext.tsx:182 | JavaScript `or` on strings gives `a` when `a` is a non-empty string and otherwise exactly `b`, missing or empty included; it is truthy exactly when one of them is |
| `JsText.OrElse` | src/contexts/AuthContext.tsx:93 | `a` followed by JavaScript `or` and a literal gives `a` when it is a non-empty string, otherwise the literal; so the result is empty only when the literal is |
| `JsText.BeforeFirstAt` | src/contexts/AuthContext.tsx:104 | `split('@')[0]` is a prefix of the e-mail without '@', followed in the e-mail by '@' or by nothing |
| `JsText.DecimalInjective` | src/utils/localBots.ts:54 | different clock readings render as different decimal strings, since each rendering denotes its own reading |
| `JsText.Decimal` | src/utils/localBots.ts:54 | the rendering of a clock reading is a string of digits whose value is the reading, with one digit exactly below 10 and no leading zero |
| `LocalBots.GetBots` | src/utils/localBots.ts:22-26 | the stored list, or the empty list when there is no window or nothing stored |
| `LocalBots.Write` | src/utils/localBots.ts:59 | a write succeeds exactly when a window exists, and a following `getBots` reads back the written list |
| `LocalBots.FindIndex` | src/utils/localBots.ts:39 | `findIndex` returns the first index holding the id, or none exactly when no record has it |
| `LocalBots.GetBot` | src/utils/localBots.ts:28-31 | `getBot` finds a record exactly when one has the id, and returns the first such record |
| `LocalBots.Merge` | src/utils/localBots.ts:41-45 | the merged record keeps id, `created_at` and status, takes name, owner and description, takes `verify_token` and `config` only when the input carries them, and has `updated_at = now` |
| `LocalBots.NewBot` | src/utils/localBots.ts:52-57 | a created record is a Draft with `created_at = now`, the supplied non-empty id or the generated one, and every other field as supplied |
| `LocalBots.UpdateIndex` | src/utils/localBots.ts:37-40 | the update branch is taken exactly when the id is non-empty and stored, at the first record holding it |
| `LocalBots.SaveBot` | src/utils/localBots.ts:33-61 | fails only without a window; update branch: same length, only the first match changes, it keeps id, `created_at` and status, takes the supplied fields and optional keys the input carries, `updated_at = now`; create branch: one Draft record appended with `created_at = now` and the input's fields, earlier records unchanged |
| `LocalBots.NewId` | src/utils/localBots.ts:54 | a new record's id is the supplied id when non-empty, else `bot-` followed by the clock reading, and never empty |
| `LocalBots.GeneratedId` | src/utils/localBots.ts:54 | a generated id is `bot-` followed by the decimal clock reading |
| `LocalBots.SaveThenGet` | src/utils/localBots.ts:37-60 | after a save, `getBot` on the returned id yields the returned record, provided a generated id was not already stored |
| `LocalBots.SavePreservesUniqueIds` | src/utils/localBots.ts:37-60 | a save keeps identifiers unique, given that a generated id is fresh |
| `LocalBots.DeleteBot` | src/utils/localBots.ts:63-71 | returns true exactly when some record had the id; afterwards no record has it and the survivors are exactly the other records in their order; a removal writes the filtered list into the same storage, window included, and nothing is written when nothing matched |
| `LocalBots.DeletePreservesUniqueIds` | src/utils/localBots.ts:65 | deleting keeps identifiers unique |
| `LocalBots.WithoutKeepsUniqueIds` | src/utils/localBots.ts:65 | filtering a list with unique ids keeps them unique |
| `LocalBots.CreateThenDelete` | src/utils/localBots.ts:51-71 | creating a record under a fresh id and deleting that id reports a removal and restores the stored list |
| `LocalBots.GeneratedIdsDistinct` | src/utils/localBots.ts:54 | saves at different milliseconds generate different ids |
| `LocalBots.DeleteAbsentIsNoOp` | src/utils/localBots.ts:66-70 | deleting an absent id returns false and leaves storage untouched |
| `TokenStorage.GetAccessToken` | src/utils/auth.ts:2-11 | succeeds exactly when authenticated, with a non-empty token from one of the stores and the local one first; otherwise fails with "No access token found. Please log in." |
| `TokenStorage.SetAccessToken` | src/utils/auth.ts:14-20 | remember-me writes only the local store, otherwise only the session store; the other store is unchanged |
| `TokenStorage.RemoveAccessToken` | src/utils/auth.ts:23-26 | both stores are emptied, so the user is no longer authenticated and a lookup fails |
| `TokenStorage.IsAuthenticated` | src/utils/auth.ts:29-31 | authenticated exactly when some store holds a non-empty token |
| `TokenStorage.SetRememberedThenGet` | src/utils/auth.ts:4-20 | after remembering a non-empty token, the lookup returns it |
| `TokenStorage.SetSessionThenGet` | src/utils/auth.ts:4-20 | after a session-only set, an older non-empty local token still wins; otherwise the new token is returned |
| `AuthContext.LoginUser` | src/contexts/AuthContext.tsx:101-110 | a user exists exactly when `id` or `user_id` is non-empty, `id` taking precedence; e-mail falls back to the typed one; name is `user_name`, else `name`, else the e-mail's part before '@' |
| `AuthContext.RegisterUser` | src/contexts/AuthContext.tsx:156-161 | a user exists exactly when `id` or `user_id` is non-empty; name is `user_name` else the typed name, with no e-mail fallback |
| `AuthContext.SignIn` | src/contexts/AuthContext.tsx:113-121 | sets and caches the user; writes the local token only when the response carries a non-empty one, else leaves the token stores untouched |
| `AuthContext.LoginFailure` | src/contexts/AuthContext.tsx:86-94 | a non-OK login is reported as 401 invalid credentials, 400 invalid request, 5xx server error, otherwise `detail` when non-empty or the generic message; the message is never empty |
| `AuthContext.Login` | src/contexts/AuthContext.tsx:47-130 | an unparseable body is "Invalid response from server" whatever the status; non-OK maps 401, 400 and 5xx to fixed messages and others to `detail` or a generic one; OK without an id is an error; any error leaves the session unchanged; success stores the derived user and the token only when present |
| `AuthContext.Register` | src/contexts/AuthContext.tsx:132-173 | an unparseable body escapes as the parser's error; non-OK reports `detail` or "Registration failed"; OK without an id is an error; any error leaves the session unchanged; success stores the user and the token only when present |
| `AuthContext.Logout` | src/contexts/AuthContext.tsx:175-179 | the user and the cached user are cleared and both token stores emptied, so no token is available |
| `AuthContext.ContextAccessToken` | src/contexts/AuthContext.tsx:181-183 | non-empty exactly when authenticated, then equal to what `getAccessToken` of the token helpers returns; the local token when non-empty, otherwise exactly the session store's value, `null` or empty included |
| `AuthContext.Restore` | src/contexts/AuthContext.tsx:38-45 | on mount the cached user, if any, becomes the current user; storage is untouched |
| `AuthContext.LoginSurvivesReload` | src/contexts/AuthContext.tsx:101-121 | after a successful login a reload restores the same user, and a carried token is the current one |
| `AuthContext.LogoutSurvivesReload` | src/contexts/AuthContext.tsx:175-179 | after logout a reload restores no user and no token is available |
| `AuthContext.LoginRegisterAgree` | src/contexts/AuthContext.tsx:101-105 | login and registration derive the same id and e-mail from the same body, and the same name when `user_name` is present |
| `CreateBot.UpdateFormData` | src/pages/CreateBot.tsx:108-110 | the named field takes the value and every other field, the use cases included, is unchanged |
| `CreateBot.HandleUseCaseChange` | src/pages/CreateBot.tsx:112-119 | checking appends the id at the end even if present; unchecking removes every occurrence and keeps the others; text fields are unchanged |
| `CreateBot.UncheckKeepsOrder` | src/pages/CreateBot.tsx:117 | unchecking acts on each part of a split list separately, so the other use cases keep their order |
| `CreateBot.CheckThenUncheck` | src/pages/CreateBot.tsx:112-119 | checking an unlisted use case and unchecking it restores the form |
| `CreateBot.CanProceedToNext` | src/pages/CreateBot.tsx:121-142 | steps 1, 4, 8 need a non-whitespace character; step 2 needs three non-empty credentials, whitespace passing; steps 3 and 6 a non-empty choice; step 5 a use case; every other step passes |
| `CreateBot.StepGuards` | src/pages/CreateBot.tsx:108-142 | editing a text field the current step's guard does not read leaves Next as it was, as does toggling a use case off step 5; checking a use case on step 5 enables Next |
| `CreateBot.HandleNext` | src/pages/CreateBot.tsx:144-148 | moves one step forward below the last step and is a no-op on it; the form is unchanged |
| `CreateBot.HandlePrevious` | src/pages/CreateBot.tsx:150-154 | moves one step back above the first step and is a no-op on it; the form is unchanged |
| `CreateBot.NextPreviousInverse` | src/pages/CreateBot.tsx:144-154 | within range and away from the bounds, Next and Previous undo each other |
| `CreateBot.Forward` | src/pages/CreateBot.tsx:489-506 | the Launch button replaces Next exactly on the last step; otherwise Next is enabled exactly when the step's guard holds |
| `CreateBot.PreviousEnabled` | src/pages/CreateBot.tsx:483 | within 1..9, Previous is enabled exactly where `handlePrevious` would move, so only step 1 disables it |
| `CreateBot.Dispatch` | src/pages/CreateBot.tsx:480-506 | one action keeps the step in 1..9; a Next click below the last step moves forward exactly when the guard holds; a Previous click above step 1 moves back; an edit applies `updateFormData` and a toggle `handleUseCaseChange` without moving; navigation leaves the form alone |
| `CreateBot.RunStaysInRange` | src/pages/CreateBot.tsx:144-154 | from a step in 1..9, any sequence of actions keeps the step in 1..9 |
| `CreateBot.Run` | src/pages/CreateBot.tsx:144-154 | over a sequence of actions the step moves at most one per action, and not at all when no action navigates |
| `CreateBot.InitialState` | src/pages/CreateBot.tsx:100-101 | the wizard opens on step 1 with the initial form, Next disabled and Previous disabled |
| `Config.GetApiUrl` | src/config.ts:5-9 | the URL starts with `/api/`, is followed by the path with at most one leading slash removed, and has length 5 + the path's length, less one for a leading slash |
| `Config.PathRoundTrip` | src/config.ts:7-8 | a path without a leading slash is recovered verbatim after `/api/` |
| `Config.LeadingSlashIgnored` | src/config.ts:7 | `getApiUrl('/' + p)` equals `getApiUrl(p)` when `p` has no leading slash |
| `Config.SameUrlIffSamePath` | src/config.ts:5-9 | two paths give the same URL exactly when they agree after dropping one leading slash |
| `Config.OnlyOneSlashStripped` | src/config.ts:7 | `getApiUrl('//x')` is `/api//x` |

## Left out

- JSON serialisation of `localStorage` values is assumed to round-trip exactly. A stored value that is not an array written by the store is not modelled.
- A `setItem` that throws for a reason other than a missing window, such as an exceeded quota, is not modelled.
- Storage reads that throw are not modelled. With storage disabled, reading `localStorage` or `sessionStorage` throws in `getBots` (src/utils/localBots.ts:24), in `getAccessToken` and `isAuthenticated` (src/utils/auth.ts:4, 30) and in the mount effect (src/contexts/AuthContext.tsx:40). The model has every read succeed.
- A response body that parses to something other than an object, such as `null`, is not modelled. Reading its fields would throw a `TypeError`.
- Response fields are modelled as strings. A numeric `id` or a non-string `detail`, such as an array of validation errors, is not modelled.
- A key passed to `saveBot` with an explicit `undefined` value is treated like an absent key. Object spread would overwrite with `undefined`.
- `Date.now()` is a non-negative parameter. Negative clock readings are not modelled.
- The `fetch` calls and their transport failures are not modelled. The response is an input.
- src/utils/api.ts is a thin authenticated-fetch wrapper and is not part of this model.
- The remote-first, local-fallback bot synchronisation is not part of this model. No code for it exists among the files modelled, and nothing modelled calls the local store.
- React loading flags, console logging, toasts, routing and rendering are not modelled. This includes `renderStepContent` and the template and use-case catalogues.
- The wizard's Launch button and its mock `handleSubmit` (a timer followed by navigation) are not modelled.
- The wizard progress percentage is floating point and is not modelled.
- `updateFormData` is never called with the `useCases` field, so it is modelled for text fields only. The use-case list changes only through `HandleUseCaseChange`.
- The static and mock pages (landing, dashboard, billing, settings, bot list) and the dashboard layout hold no logic to model.
