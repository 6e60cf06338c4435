# Profile → Settings → Edit Name / Detail reducers, in Dafny

This project models the reducer layer of a small SwiftUI demo built on a
unidirectional-data-flow framework (The Composable Architecture). The app has
a root Profile screen. It owns a user profile and a navigation stack of
Settings and Detail screens. A Settings screen can present an Edit Name
screen, and a name saved there travels up to the root profile:

- Edit Name turns a committed name into an action for its parent Settings.
- Settings re-sends it as `updateProfile`.
- The root takes that profile over.

Each reducer is a deterministic step from (state, action) to (new state,
follow-up actions). `.none` is the empty sequence and `.send(a)` is `[a]`.

Modules, one per reducer plus the pieces they share:

- `Models`: `UserProfile`, `Option`, and `Step` (a new state plus the actions its effect sends).
- `EditNameFeature`, `DetailFeature`, `SettingsFeature`: the three child
  reducers. Their states are Swift value structs nested inside stack entries,
  so they are datatypes and the reducers are functions. A field update on the
  `inout` state is a datatype update.
- `StackStates`: the navigation stack. It is a sequence of (id, screen state)
  pairs plus an id counter. Its invariant is that ids increase with push
  order and are all below the counter, so they are distinct.
- `ProfileFeature`: the root closure (`Reduce`) and the reducer the `Path`
  enum generates (`PathReduce`). `Body` is the closure composed with
  `.forEach(\.path, action: \.path)`.
- `StoreRuntime`: the store. It processes one action and the follow-up
  actions its effects send (`Process`), then receives the user's actions one
  at a time (`Run`). The whole-flow properties are stated here.
- `ProfileStore`: the root state held in place by a `Store` class. Its
  `Reduce` runs the closure on its fields, appending to `path` and assigning
  `userProfile`. Its `Send` runs one action through `Body`, replacing the
  addressed stack entry in place. Both are proved equal to the functions.
  The class shows the in-place form of the update. The properties of the
  flow are proved on the functions.

The Settings body is its closure followed by `Scope(state: \.editNameState,
action: \.editName)`. That order is written in the source. The behaviour of
`.forEach` is not in the source: it comes from the framework. For an
element action, the model runs the entry's own reducer first, then the root
closure, and sends the entry's effects back addressed to the same id. The
model says nothing about these cases: an id that is not on the stack, an
action for the other kind of screen, and stack pushes and pops. `Body` and
`Process` return `None` for them.

One consequence the proofs make explicit (`OpenEditSaveFlow`): the profile
that reaches the root is the Settings screen's own copy with the new name.
That copy starts as `UserProfile(name: "", email: "")` and is never filled
from the root. So saving a name through a newly opened Settings screen always
sets the root email to "". In the states the app can reach, the root email is
"" anyway.

## Model

| member | source | states |
|---|---|---|
| `EditNameFeature.Reduce` | test_stack/TestView.swift:197-207 | `nameChanged(s)` sets the field to `s`; `nameUpdated` leaves the state as it is; nothing is ever sent |
| `EditNameFeature.NameChangedIdempotent` | test_stack/TestView.swift:200-202 | applying the same `nameChanged` twice equals applying it once |
| `EditNameFeature.RunKeepsLastTyped` | test_stack/TestView.swift:198-206 | after any sequence of Edit Name actions the field holds the text of the last `nameChanged` (an independent reference definition), or its old text if there was none |
| `EditNameFeature.Run` | test_stack/TestView.swift:198-206 | no contract of its own: the store feeding Edit Name actions one after another; `RunKeepsLastTyped` states what it computes |
| `DetailFeature.Reduce` | test_stack/TestView.swift:250-256 | `test1` leaves the (empty) state unchanged and sends nothing |
| `SettingsFeature.WithName` | test_stack/TestView.swift:139-140 | the copied profile carries the new name and keeps the email |
| `SettingsFeature.Reduce` | test_stack/TestView.swift:128-150 | only navigation changes `route`; only `updateProfile(p)` changes the profile, and then to `p`; the text field is never touched; it sends at most one action, only for a committed name, and that action is an `updateProfile` carrying the current email |
| `SettingsFeature.Body` | test_stack/TestView.swift:127-155 | the closure followed by the Edit Name scope: typing reaches the text field, every other action leaves it alone, and the closure's guarantees on route, profile and sent actions still hold |
| `SettingsFeature.PresentKeepsProfileAndText` | test_stack/TestView.swift:130-132 | `setNavigation(.presented(r))` sets `route` to `r`, keeps profile and typed name, sends nothing |
| `SettingsFeature.DismissKeepsProfileAndText` | test_stack/TestView.swift:134-136 | `setNavigation(.dismiss)` clears `route`, keeps profile and typed name, sends nothing |
| `SettingsFeature.TypingReachesTextField` | test_stack/TestView.swift:152-154 | `editName(.nameChanged(s))` changes only the Edit Name field, to `s`, and sends nothing |
| `SettingsFeature.UpdateProfileStoresProfile` | test_stack/TestView.swift:146-148 | `updateProfile(p)` changes only the Settings profile, to `p`, and sends nothing |
| `SettingsFeature.CommitNameRoundTrip` | test_stack/TestView.swift:138-148 | `editName(.nameUpdated(n))` leaves Settings unchanged and sends exactly `updateProfile(q)` with `q.name == n` and the current email; feeding `q` back makes it the Settings profile |
| `StackStates.Empty` | test_stack/TestView.swift:20 | a new stack is empty and satisfies the id invariant |
| `StackStates.Append` | test_stack/TestView.swift:42 | `path.append(e)` adds exactly one entry holding `e` on top, leaves earlier entries as they were, keeps the invariant, and gives the new entry an id no earlier entry has |
| `StackStates.IndexOf` | test_stack/TestView.swift:66 | finds an entry carrying the id when there is one, and reports none only when no entry carries it |
| `StackStates.IndexOfUnique` | test_stack/TestView.swift:66 | in a stack satisfying the invariant, the id of entry `i` leads back to entry `i` |
| `StackStates.SetAt` | test_stack/TestView.swift:66 | storing an entry's new screen state keeps every id, every other entry and the invariant |
| `ProfileFeature.Initial` | test_stack/TestView.swift:16-21 | the root starts with profile `("", "")`, default child states and an empty stack |
| `ProfileFeature.Reduce` | test_stack/TestView.swift:38-65 | the root closure never sends anything, never changes the two unscoped child states, changes the stack only for `toSetting`/`toDetail` and only by pushing, keeps the stack invariant, and changes the profile only to one a Settings screen delegated |
| `ProfileFeature.ToSettingPushesSettings` | test_stack/TestView.swift:41-43 | `toSetting` pushes exactly one default Settings screen; earlier entries and the profile are unchanged; nothing is sent |
| `ProfileFeature.ToDetailPushesDetail` | test_stack/TestView.swift:45-47 | `toDetail` pushes exactly one default Detail screen; earlier entries and the profile are unchanged; nothing is sent |
| `ProfileFeature.DelegatedUpdateSetsProfile` | test_stack/TestView.swift:49-58 | a Settings `updateProfile(p)`, on the `settings` case or from any stack entry whatever its id, sets the root profile to exactly `p`, leaves the stack alone and sends nothing |
| `ProfileFeature.OtherActionsAreInert` | test_stack/TestView.swift:53-60 | every other root action leaves the root state unchanged and sends nothing |
| `ProfileFeature.PathReduce` | test_stack/TestView.swift:23-27 | an action for the entry's own kind of screen is handled (and only such an action); the new entry state is exactly what that kind's reducer (`SettingsFeature.Body` or `DetailFeature.Reduce`) gives, of the same kind; it sends at most one action, only for a committed name, and that action is a Settings `updateProfile` |
| `ProfileFeature.Body` | test_stack/TestView.swift:37-67 | non-stack actions go to the closure alone; a stack action is handled exactly when it addresses an entry on the stack with an action of that entry's kind, and then entry `i` holds the entry reducer's new state, every other entry is unchanged, the root profile becomes the delegated profile if the action carries one and stays otherwise, and what the entry sends comes back addressed to the same id; the stack keeps its invariant and the unscoped child states stay untouched |
| `StoreRuntime.CommitNameReachesRoot` | test_stack/TestView.swift:56-58 | saving `n` under Settings entry `i` leaves both that entry's profile and the root profile equal to the entry's profile with the name `n`; nothing else changes |
| `StoreRuntime.Process` | test_stack/TestView.swift:37-67 | no contract of its own: the store processing an action and then, first in first out, every action its effects send; `ProcessKeepsStack`, `CommitNameReachesRoot`, `UpdateProfileReachesEntryAndRoot` and `DetailActionChangesNothing` state its properties |
| `StoreRuntime.Run` | test_stack/TestView.swift:37-67 | no contract of its own: the store receiving user actions one at a time, each processed to the end; `RunKeepsStack`, `PushesStackInOrder` and `OpenEditSaveFlow` state its properties |
| `StoreRuntime.DetailActionChangesNothing` | test_stack/TestView.swift:253-254 | `test1` sent to a Detail entry leaves the whole root state as it is |
| `StoreRuntime.UpdateProfileReachesEntryAndRoot` | test_stack/TestView.swift:56-58 | `updateProfile(p)` sent to Settings entry `i` sets that entry's profile and the root profile to `p`; nothing else changes |
| `StoreRuntime.SettingsActionStaysInEntry` | test_stack/TestView.swift:66 | a Settings action that sends nothing and carries no profile, addressed to Settings entry `i`, changes that entry alone, to its reducer's new state, and leaves the root profile as it is |
| `StoreRuntime.ProcessKeepsStack` | test_stack/TestView.swift:37-67 | processing an action and everything it sends keeps the stack's ids distinct, only pushes, and never touches the unscoped child states |
| `StoreRuntime.RunKeepsStack` | test_stack/TestView.swift:37-67 | the same for any sequence of user actions |
| `StoreRuntime.PushesStackInOrder` | test_stack/TestView.swift:41-47 | after any run of `toSetting`/`toDetail` taps the stack has one more entry per tap, in tap order, on top of the untouched old stack, and the profile is unchanged |
| `StoreRuntime.OpenEditSaveFlow` | test_stack/TestView.swift:111-148 | from any root state whose stack satisfies the id invariant (every reachable one), open Settings, present Edit Name, type `n` and save: the root profile becomes `(n, "")` and the new Settings screen shows `n` |
| `StoreRuntime.AdaScenario` | test_stack/TestView.swift:17-20 | from the initial state that flow with "Ada" leaves the root profile `("Ada", "")` |
| `ProfileStore.Store.constructor` | test_stack/test_stackApp.swift:16-18 | the store starts in the root's initial state |
| `ProfileStore.Store.Reduce` | test_stack/TestView.swift:38-65 | the closure run in place on the store's fields gives the state `ProfileFeature.Reduce` gives; earlier stack entries and the unscoped child states are unchanged |
| `ProfileStore.Store.Send` | test_stack/TestView.swift:37-67 | one action run in place through the body gives the state and follow-up actions that `ProfileFeature.Body` gives; an action outside the model changes nothing |

## Left out

- The SwiftUI views (`ProfileView`, `SettingsView`, `EditNameView`, `DetailView`): rendering, bindings and the environment `dismiss()` call are UI only.
- The app entry point and its global store in `test_stack/test_stackApp.swift`: framework bootstrapping. Only the initial state is modelled, by `Store.constructor`.
- Framework behaviour that the source does not show. This covers what `.forEach` does with an id no longer on the stack, with an action for the other kind of screen, and with the stack's own `push`/`popFrom` actions (popping included). `Body` and `Process` return `None` for these. The root closure's own answer to those actions is modelled by `ProfileFeature.Reduce`. It does nothing for `push`/`popFrom` and for every element action but one. For a Settings `updateProfile` it takes over the profile whatever the id, as `DelegatedUpdateSetsProfile` states. `Body` does not model that case for a stale id or a Detail entry, and returns `None` for it.
- `Effect` scheduling: effects are modelled as a list of actions. Follow-up actions are queued behind the rest, each processed in turn.
- Stack ids come from a counter stored in the stack value. The framework takes them from a global id generator.
- `ProfileReducer.State.settingsState` and `detailState` are kept as fields that no reducer changes, as in the source.
- `@Presents` / `PresentationAction`: modelled as an optional route and a two-case action. The closure handles them directly, as the source does.
