# Session store and dashboard gate of Lumina Sistema, in Dafny

This project models the two state machines that carry the client's logic.

- **The session store `useAuthStore`** (`src/stores/authStore.ts`). The state is `user`, `isLoading` and `currentChurchId`. Two more flags sit beside it: the module-level lock `isCheckingAuth` and the listener flag. The actions are `checkAuth`, `login`, `logout`, `setCurrentChurchId`, `initializeAuthListener` with its event callback, and the persisted subset.
- **The navigation state of `DashboardPage`** (`src/pages/DashboardPage.tsx`). The state is the active module and the profile-completion dialog flag. The module is set from navigation state or from the layout. The gate is recomputed from the store, and a module id maps to its content.

Every action is a pure function over immutable records. The identity backend's calls are inputs:

- `Replies` holds what `getSession`, the `super_admins` lookup and the `membros` lookup gave back.
- `SignInReply` is the result of `signInWithPassword`.
- `SignOutReply` is the result of `signOut`.

`checkAuth` is split at its suspension points:

- `Begin` is the synchronous part before the first `await`: the guard, `isLoading := true` and taking the lock.
- `Complete` is the part after the last `await`. Every write to `user` and `currentChurchId` happens there, followed by the `finally` that releases the lock and clears `isLoading`. Nothing is written between the first and the last `await`.

Other actions may run between the two halves. Module `AuthTrace` models that interleaving as sequences of atomic steps.

Modules:

- `Wrappers` (`wrappers.dfy`): `Option`, standing for `null`/`undefined`.
- `Session` (`session.dfy`): the backend's rows, the `User` record, and the mapping `Resolve` from replies to the stored user.
- `AuthStore` (`auth_store.dfy`): the store record and every action.
- `AuthTrace` (`auth_trace.dfy`): schedules of steps, the lock invariant, and scenarios of interleaving.
- `Dashboard` (`dashboard.dfy`): the navigation state, the gate, dialog visibility and module rendering.
- `DashboardTrace` (`dashboard_trace.dfy`): the page over a sequence of store changes and UI actions.

## Where the code departs from the evident intent

The model follows the code in each of these places.

- A `super_admins` query error is ignored: its `data` is null, so the run falls through to the member lookup (`SuperAdminErrorFallsThrough`). The `membros` query error, by contrast, is thrown into the `catch` and clears the user (lines 143 and 168-170), so the two lookups treat a backend error differently.
- The role (`funcao`) and the status are cast without validation, and `User.role`/`User.status` keep the raw string. So a `membros` row with `funcao = 'super_admin'` produces a super admin, and `id_igreja` and `perfil_completo` are copied from the row (lines 154 and 159). Such a user can therefore be bound to a church or have an incomplete profile. That breaks the intended invariant "super admin ⇒ no church and complete profile", which the super-admin branch itself establishes (lines 121-127). The invariant holds for such a user exactly when the row has no church and a complete profile (`UncheckedRoleWellFormedIff`). The invariant does hold for every user the super-admin branch produces, and for member users whose role is not `super_admin` (`Resolve`).
- The member's church name falls back to `'Igreja não encontrada'` both when the join is absent and when the joined name is empty. The source uses `||`, and an empty string is falsy.
- `isLoading` is not tied to the lock. `login`'s `finally` and `SIGNED_OUT` both clear it while another `checkAuth` holds the lock (`LoginClearsLoadingUnderLock`, `SignedOutThenLateCompletion`). A completion that runs after `SIGNED_OUT` writes its user over the cleared one.
- `logout` has no `try`/`finally`. If `signOut` rejects, the rejection escapes and `isLoading` stays `true` (`SignOutThrew`). `checkAuth` and `login` both clear `isLoading` in a `finally` (lines 61-63 and 171-176); `logout` clears it only on the two paths where `signOut` returns.

## Model

| member | source | states |
|---|---|---|
| `Session.Resolve` | src/stores/authStore.ts:97-170 | A user is stored exactly on the super-admin and member outcomes, and it is the session's subject. The super-admin branch gives role `super_admin`, no church, `'Painel Master'`, status `ativo`, a complete profile and no ministry. The member branch copies role, church id, status, profile flag, ministry, name and creation time from the row. Both branches satisfy the super-admin invariant unless the row's own role is `super_admin`. |
| `Session.ChurchDisplayName` | src/stores/authStore.ts:155 | The displayed church name is never empty. It is the joined name when present and non-empty, else `'Igreja não encontrada'`. |
| `Session.SuperAdminErrorFallsThrough` | src/stores/authStore.ts:108-114 | A failed `super_admins` query gives the same user as "no row", and it never selects the super-admin branch. |
| `Session.UncheckedRoleWellFormedIff` | src/stores/authStore.ts:148-162 | A member row with role `super_admin` yields a super admin. That user satisfies the super-admin invariant exactly when the row has no church and a complete profile. |
| `Session.UnknownRoleKept` | src/stores/authStore.ts:153 | A member role outside the `UserRole` enumeration reaches the user unchanged. |
| `AuthStore.Begin` | src/stores/authStore.ts:85-94 | While the lock is held, the call changes nothing. Otherwise it raises `isLoading` and takes the lock, leaving user, church and listener flag as they were. |
| `AuthStore.Complete` | src/stores/authStore.ts:96-176 | Every completion releases the lock and clears `isLoading`. The stored user is the resolved one, and `currentChurchId` mirrors its church. All four failure outcomes clear both user and church. A super admin clears the church; a member sets it from `id_igreja`. |
| `AuthStore.CheckAuth` | src/stores/authStore.ts:85-177 | An uninterrupted call is a no-op under the lock. Otherwise it ends unlocked, not loading, with the resolved user, and `currentChurchId` follows that user: cleared on failure and for a super admin, `id_igreja` for a member. |
| `AuthStore.StartLoading` | src/stores/authStore.ts:46 | Only `isLoading` changes, and it becomes true. This is the first step of both `login` and `logout` (line 74). |
| `AuthStore.LoginFinally` | src/stores/authStore.ts:61-63 | Only `isLoading` changes, and it becomes false, whoever holds the lock. |
| `AuthStore.Login` | src/stores/authStore.ts:45-65 | The result is true exactly when the backend returned a user, even if the nested `checkAuth` then clears the user. On false, user and church are unchanged. `isLoading` is false on exit and the lock is as it was. If the lock was held, the nested `checkAuth` did nothing; if it was free, the user is the resolved one and `currentChurchId` follows it. |
| `AuthStore.LogoutSettle` | src/stores/authStore.ts:75-83 | Success clears user, church and `isLoading`. An error only clears `isLoading`. A rejection changes nothing. |
| `AuthStore.Logout` | src/stores/authStore.ts:72-83 | Success ends signed out and not loading. An error leaves user and church untouched and ends not loading. A rejection leaves the store loading. |
| `AuthStore.SetCurrentChurchId` | src/stores/authStore.ts:179-182 | The church id becomes the argument and nothing else changes. |
| `AuthStore.Dispatch` | src/stores/authStore.ts:188-199 | `SIGNED_IN`, `TOKEN_REFRESHED` and `USER_UPDATED` act as the guarded `checkAuth` start, which is a no-op under the lock. `SIGNED_OUT` clears user, church and `isLoading` without touching the lock. Every other event changes nothing. |
| `AuthStore.InitializeListener` | src/stores/authStore.ts:184-203 | It subscribes exactly when the flag was down, and the flag ends up set with nothing else changed. |
| `AuthStore.ListenerInstalledOnce` | src/stores/authStore.ts:186-202 | A second initialisation never subscribes. |
| `AuthStore.Partialize` | src/stores/authStore.ts:206-210 | The persisted record carries the store's church id. |
| `AuthStore.Rehydrate` | src/stores/authStore.ts:38-43 | A restarted store has the persisted church id, no user, `isLoading` true, the lock free and no listener. |
| `AuthStore.RestartKeepsChurch` | src/stores/authStore.ts:179-210 | A church set before a restart is present after it, while the user is absent until `checkAuth` runs. |
| `AuthStore.PersistedIgnoresSession` | src/stores/authStore.ts:209 | Stores that agree on the church id persist the same thing, so nothing else is persisted. |
| `AuthTrace.Next` | src/stores/authStore.ts:85-203 | In one atomic step, a completion releases the lock, clears loading and ends its fetch. A `checkAuth` or re-check event under the lock changes nothing. A new fetch starts only when the lock was free, and then takes it. A new subscription happens only when the listener flag was down. |
| `AuthTrace.Boot` | src/stores/authStore.ts:36-43 | A freshly started process satisfies the lock/fetch and flag/subscription invariant. |
| `AuthTrace.NextKeepsInv` | src/stores/authStore.ts:85-203 | Every enabled step preserves the invariant. |
| `AuthTrace.RunKeepsInv` | src/stores/authStore.ts:85-203 | Every possible schedule preserves the invariant. |
| `AuthTrace.AtMostOneFetch` | src/stores/authStore.ts:85-203 | Whatever the schedule since start-up, at most one session fetch is in flight, exactly while the lock is held, and at most one callback is subscribed. |
| `AuthTrace.TwoTriggersOneResolution` | src/stores/authStore.ts:85-199 | A direct `checkAuth` and a `TOKEN_REFRESHED` event together start one fetch. After its completion, a second completion cannot happen. |
| `AuthTrace.SignedOutThenLateCompletion` | src/stores/authStore.ts:148-198 | A `SIGNED_OUT` during a resolution leaves the lock held with `isLoading` false. The later completion overwrites the cleared user. |
| `AuthTrace.LoginClearsLoadingUnderLock` | src/stores/authStore.ts:45-94 | A login whose `checkAuth` is ignored still ends not loading while the other fetch holds the lock. |
| `Dashboard.ApplyLocationState` | src/pages/DashboardPage.tsx:31-38 | A truthy requested module replaces the active one. Absent or empty navigation state changes nothing. The dialog flag is never touched. |
| `Dashboard.ConsumedState` | src/pages/DashboardPage.tsx:36 | The entry left in history never requests a module. A state that requested nothing is left as it was. |
| `Dashboard.LocationStateConsumedOnce` | src/pages/DashboardPage.tsx:31-38 | Replaying the history entry left behind has no further effect. |
| `Dashboard.RecomputeGate` | src/pages/DashboardPage.tsx:40-47 | The flag is raised exactly when the page is not loading, a user is present, the role is not `super_admin` and the profile is incomplete. The module is kept. |
| `Dashboard.SelectModule` | src/pages/DashboardPage.tsx:136-140 | The module becomes the chosen id and the flag is down, whatever it was before. |
| `Dashboard.CloseDialog` | src/pages/DashboardPage.tsx:148 | The flag is down and the module is unchanged. |
| `Dashboard.NavigateToProfile` | src/pages/DashboardPage.tsx:149 | The module is `personal-info` and the dialog is closed. |
| `Dashboard.DialogVisible` | src/pages/DashboardPage.tsx:145-151 | The dialog is on screen exactly when the flag is raised and the user is present, has an incomplete profile and is not a super admin. So it never shows to any other user, whatever the flag says. |
| `Dashboard.GateDecidesVisibility` | src/pages/DashboardPage.tsx:40-151 | Right after the gate effect, the dialog is visible exactly when the gate condition holds. |
| `Dashboard.RenderModuleContent` | src/pages/DashboardPage.tsx:49-133 | Every id has content. The ids listed in the table get their entry, and every other id gets the home content. |
| `Dashboard.HomeIsTheFallback` | src/pages/DashboardPage.tsx:130-132 | `'dashboard'` shows the home content. An id shows home exactly when it is not a listed id. |
| `Dashboard.RenderDistinguishesModules` | src/pages/DashboardPage.tsx:51-129 | Two different listed ids show different content. |
| `Dashboard.ModuleIdOf` | src/pages/DashboardPage.tsx:49-133 | Every content is reached by some id. That id is a listed one exactly when the content is not home. |
| `Dashboard.ModuleIdRoundTrip` | src/pages/DashboardPage.tsx:49-133 | For listed ids, mapping an id to its content and back gives the id. |
| `DashboardTrace.Mount` | src/pages/DashboardPage.tsx:28-47 | After mount and its two effects, the active module is the one requested by the navigation state, else `'dashboard'`, and the dialog flag is exactly the gate condition. |
| `DashboardTrace.MountShowsGate` | src/pages/DashboardPage.tsx:40-47 | A page mounted for an already-loaded user shows the dialog at once exactly when the gate condition holds. |
| `DashboardTrace.NextView` | src/pages/DashboardPage.tsx:31-149 | A store change installs the new `user` and `isLoading` and keeps the active module. Navigation and dialog actions leave `user` and `isLoading` as they were. |
| `DashboardTrace.NextViewKeepsGate` | src/pages/DashboardPage.tsx:31-149 | Every store change, navigation or dialog action keeps the flag consistent with the gate condition. |
| `DashboardTrace.RunViewKeepsGate` | src/pages/DashboardPage.tsx:31-149 | Every sequence of such steps keeps it consistent. |
| `DashboardTrace.DialogOnlyForIncompleteProfiles` | src/pages/DashboardPage.tsx:28-151 | After any sequence of steps from mount, a raised flag means a signed-in, non-super-admin user with an incomplete profile and nothing loading. The dialog is on screen exactly when the flag is raised. |
| `DashboardTrace.PastorSeesGateUntilNavigating` | src/pages/DashboardPage.tsx:40-140 | A pastor with an incomplete profile sees the dialog once loading settles. Choosing any module hides it and shows that module. |

## Left out

- Backend calls (`signInWithPassword`, `signOut`, `getSession`, the table queries, `onAuthStateChange`) are foreign I/O. They are inputs here, and the fetch and subscription counters in `AuthTrace.World` stand for them.
- A rejected (thrown) `super_admins` query promise is not modelled. The client library returns errors as values, and a returned error is modelled. A rejection there would land in `checkAuth`'s `catch` and clear the user.
- The `register` action always returns the same failure and has no logic.
- Console logging is not modelled.
- The zustand `create`/`persist` middleware and local-storage rehydration are library plumbing. Only the persisted shape `{currentChurchId}` and the merge into the initial state are kept.
- `session.user.email!` is a non-null assertion with no runtime check. The model takes the email as always present.
- React rendering, `MainLayout`, the placeholder markup and styling are left out. Each module's content is one `Content` tag.
- The page's unused `currentChurchId` prop is left out.
- `useLocation` and `window.history.replaceState` are router and browser side effects. Only "the request is consumed once" is kept, as `ConsumedState`.
- A navigation payload whose `activeModule` is a truthy non-string is not modelled, because module ids are strings.
- Real concurrency is modelled only as explicit step sequences. Within one `login` or `logout`, the step order is not enforced, so the schedules cover every real one.
- `AuthStore.Login` runs its nested `checkAuth` without interleaving. Interleaved logins are covered by `AuthTrace`.
- `DashboardTrace.AuthChanged` recomputes the gate on every store change, even when `user` and `isLoading` are unchanged. React re-runs that effect only when one of them changes, so the model over-approximates when it fires. A dismissed dialog can be re-raised in the model by, say, `setCurrentChurchId`, but not in the page. The safety lemmas still hold, because the model only adds behaviour.
- React renders once between a store change and the gate effect. During that render the old flag is shown with the new user. `DashboardTrace` views are taken after effects: the mount runs the location-state effect and then the gate effect, and each store change runs the gate effect. `Dashboard.DialogVisible` covers the in-between render: the dialog is never shown to a user who does not need it.
