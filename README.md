# Valencire account and session model

A Dafny model of the account/session state machine in the Valencire
storefront's sign-in component (`ValencireAuthSystem`). In the source, the
component keeps a map from email to user record. It also keeps the signed-in
email, the current view (`landing`, `signin`, `signup`, `dashboard`) and an
error banner. It writes the user map and the session through to two browser
storage keys, `valencire_users` and `valencire_session`. Five handlers change
this state: signup, signin, logout, "add sample order" and the view buttons.

Files and modules:

- `numbers.dfy`, module `Numbers`: how a `Date.now()` value is printed in
  decimal when it goes into an order id, with its inverse.
- `records.dfy`, module `Records`: the record types (user, order, item,
  activity event, session). It also holds the pure updates the handlers build
  with object and array spreads, the 20-entry "recent activity" window, and the
  signup and signin checks in the order the source makes them.
- `valencire.dfy`, module `Valencire`: class `AuthSystem`, with one field per
  piece of component state and one per storage key. Each handler is a method
  whose postcondition gives the whole new state in terms of the old one.
  `Valid()` is the object invariant: the signed-in email is always the stored
  session's, and the stored users blob always equals the in-memory map (it is
  absent only while the map is still empty). Every method keeps it.
- `scenarios.dfy`, module `Scenarios`: two client walks over the class's
  methods, proved from their contracts alone. One is a signup followed by a
  short password, a duplicate email, a sample order and a logout. The other is
  signin with an unknown email, then a wrong password, then the right one. The
  order and logout buttons sit on the dashboard, which the component never
  opens, so the component itself cannot make these calls in this order.

Clock reads and ids are parameters. Each `new Date().toISOString()` and each
`Date.now()` call in a handler is its own parameter, because the source calls
the clock separately for each one. The values typed into the form are
parameters too.

Behaviour of the code worth noting:

- Signup checks only three things: password equals confirmation, length at
  least 6, email not yet registered. Nothing checks for empty fields or an
  email pattern, so an empty email is accepted. The source then treats `""`
  as "nobody signed in" because it is falsy in JavaScript. `LoggedIn()` models
  this: present and not empty.
- The startup effect trusts the stored session's email and never checks that
  the record still exists (see the constructor).
- No code path sets the view to `dashboard`. Signup and signin leave the view
  as it is and redirect the page instead. So the dashboard branch of this
  component cannot be reached from its own state changes: `Destination` never
  yields it, and every handler either keeps the view or opens `landing`. With
  an unresolved user, `Render` gives `Blank` (the source's `return null`).
- Signin reports an unknown email and a wrong password with different banner
  texts (`MessagesDistinct`). Passwords are plain text, stored as typed and
  compared by exact equality.

A second invariant is `StoreSound`. It says every record is keyed by its own
email, has the account-creation event as its oldest entry, and has every order
priced, meaning its total equals the sum of price × quantity. The source never
checks this, and nothing breaks it. `HandleSignup`, `HandleSignin`,
`HandleLogout` and `AddSampleOrder` each promise
`old(StoreSound(users)) ==> StoreSound(users)`. `Click` carries no such clause:
it keeps `StoreSound` because its frame (`modifies this`view, this`error`)
leaves `users` untouched. The lemmas `LogActivityKeepsSound`,
`PlaceOrderKeepsSound` and `UpdateKeepsStoreSound` state the same facts for the
record updates on their own.

## Model

| member | source | states |
|---|---|---|
| `Numbers.Decimal` | ValencireAuthSystem.jsx:174 | the printed form of a `Date.now()` value is a non-empty string of digits with no leading zero |
| `Numbers.DecimalRoundTrip` | ValencireAuthSystem.jsx:174 | reading the printed digits back gives the original number |
| `Numbers.DecimalInjective` | ValencireAuthSystem.jsx:174 | different numbers print differently |
| `Records.OrderId` | ValencireAuthSystem.jsx:174 | an order id is `ORD-` followed by digits only |
| `Records.OrderIdInjective` | ValencireAuthSystem.jsx:174 | orders placed at different milliseconds get different ids |
| `Records.SampleOrder` | ValencireAuthSystem.jsx:173-187 | the sample order has one item and total 1800, and that total equals the sum of price × quantity over its items; its id comes from the clock value and its date is the one given |
| `Records.NewUser` | ValencireAuthSystem.jsx:65-85 | the new record is sound under its email and stores the password as typed; it has no orders, no addresses and exactly one activity, `account_created` with id 1; notifications are on and the newsletter is off |
| `Records.LogActivity` | ValencireAuthSystem.jsx:117-128 | the activity log becomes the new event followed by the old log, so it grows by exactly one; no other field of the record changes |
| `Records.PlaceOrder` | ValencireAuthSystem.jsx:189-201 | the order goes to the front of the orders and the event to the front of the log, each list growing by one; no other field changes |
| `Records.LogActivityKeepsSound` | ValencireAuthSystem.jsx:147-158 | logging a login or logout event keeps a record sound, so its oldest event is still the account creation |
| `Records.PlaceOrderKeepsSound` | ValencireAuthSystem.jsx:189-201 | placing a priced order keeps a record sound |
| `Records.UpdateKeepsStoreSound` | ValencireAuthSystem.jsx:87 | replacing one key's record with a sound record keeps every record of the map sound |
| `Records.RecentActivities` | ValencireAuthSystem.jsx:555 | the dashboard lists the first min(20, n) activities, in log order |
| `Records.RecentAfterLog` | ValencireAuthSystem.jsx:555 | after an event is logged, the list shows it first, then the 19 (or fewer) entries that were listed before it |
| `Records.Message` | ValencireAuthSystem.jsx:50-115 | every rejection has non-empty banner text, so the banner shows exactly when something was rejected |
| `Records.MessagesDistinct` | ValencireAuthSystem.jsx:105-115 | different rejections have different banner texts; in particular an unknown email and a wrong password can be told apart |
| `Records.CheckSignup` | ValencireAuthSystem.jsx:50-63 | signup is rejected in a fixed order: first a confirmation mismatch, then a password under 6 characters, then an email that is already registered; it is accepted exactly when none of these holds |
| `Records.CheckSignin` | ValencireAuthSystem.jsx:105-115 | signin is accepted exactly when the email has a record and its stored password equals the typed one; otherwise the error is "account not found" if there is no record, and "incorrect password" if there is one |
| `Valencire.Destination` | ValencireAuthSystem.jsx:233-426 | the sign-in buttons open `signin`, the create-account buttons open `signup`, and Back opens `landing`; no control opens `dashboard` |
| `Valencire.AuthSystem.constructor` | ValencireAuthSystem.jsx:18-31 | at startup the stored users are loaded if present (otherwise the map is empty); the signed-in email is taken from the stored session without checking it against the map; the view is `landing` |
| `Valencire.AuthSystem.Render` | ValencireAuthSystem.jsx:224-572 | the dashboard renders exactly when the view is `dashboard` and the user resolves, and then lists that user's 20 most recent activities; the dashboard view with no resolved user renders nothing; the error banner shows exactly when the error text is non-empty |
| `Valencire.AuthSystem.SaveUsers` | ValencireAuthSystem.jsx:33-36 | the stored users blob and the in-memory map both become the given map; nothing else changes |
| `Valencire.AuthSystem.CreateSession` | ValencireAuthSystem.jsx:38-44 | the session key is replaced (not added to) by `{email, loginTime}` and that email is signed in; nothing else changes |
| `Valencire.AuthSystem.Click` | ValencireAuthSystem.jsx:233-426 | a control can be clicked only on the page that shows it: the two landing buttons on `landing`, the "Create Account" link on `signin`, the "Sign In" link on `signup`, and Back on either form. It opens the control's view, and only the two cross links also clear the error |
| `Valencire.AuthSystem.HandleSignup` | ValencireAuthSystem.jsx:46-99 | a rejection sets its message and leaves the users, the signed-in email and both storage keys unchanged. An acceptance adds exactly the key `email`, holding `NewUser`, and leaves every other entry alone; it writes the map through, replaces the session with this email and signs the email in, and the view stays as it was; the dashboard's record for the signed-in user (`getUserData`) is then the new record, with 0 orders, 0 addresses and 1 activity, unless the email is empty, which counts as nobody signed in. A rejection leaves that record as it was |
| `Valencire.AuthSystem.HandleSignin` | ValencireAuthSystem.jsx:101-142 | a missing account or a wrong password sets its message and changes nothing else. A match replaces only that email's record, by the record with a `login` event in front; it writes the map through, replaces the session and signs the email in. The dashboard's record for the user is then the updated one, whose log is one entry longer and starts with `login` (for a non-empty email); a rejection leaves that record as it was |
| `Valencire.AuthSystem.HandleLogout` | ValencireAuthSystem.jsx:144-167 | with a truthy email signed in, exactly one `logout` event goes in front of that user's log and the map is written through; in every case the session key is removed, nobody is signed in and the view becomes `landing`, so the dashboard has no record to show |
| `Valencire.AuthSystem.AddSampleOrder` | ValencireAuthSystem.jsx:169-205 | with nobody signed in nothing changes. Otherwise the sample order goes in front of the user's orders and an `order_placed` event naming the order's id goes in front of their log; no other user changes, the map is written through, and the session and view are kept. The dashboard's record then has one more order and one more activity, the first order being the sample order and the first activity `order_placed` |

## Left out

- Rendering: the JSX markup, CSS classes, icons and the show-password toggle
  (ValencireAuthSystem.jsx:224-572). Only which branch renders is modelled
  (`Render`).
- `main.jsx`: it only mounts the component.
- Browser storage and JSON: the two storage keys are fields that hold the
  structured values. No string is serialized, so the serialize/parse round
  trip is not modelled, and neither is a storage write that fails.
- The `window.location.href` redirects after startup, signup and signin:
  navigation with no state the model can follow.
- Clock and locale: ISO timestamps and `Date.now()` values are parameters.
  `formatDate` is not modelled. Activity ids are not proved unique: the source
  takes them from the clock, and two events in the same millisecond can share
  one.
- Form state: the typed values are parameters. The form reset after a
  successful signup or signin and `preventDefault` are not modelled.
- Lookups through JavaScript's object prototype: `users[email]` on a plain
  object also finds inherited names such as `toString`. So in the source a
  signup with that email reports "Email already registered!" and a signin
  reports "Incorrect password!". The model uses a finite map that holds only
  real records.
- Password length: the source counts UTF-16 code units and the model counts
  Unicode characters. They differ only for characters outside the Basic
  Multilingual Plane.
- React's deferred state updates: each handler reads state once and then
  writes it, so applying each update immediately gives the same result.
- Addresses: the source never creates one; it only starts every record with
  `addresses: []`. The fields of `Address` are this model's own choice.
- Valencire.AuthSystem.HandleLogout: the source throws if the signed-in email
  has no record. The model makes that case a precondition (`SessionResolves`)
  instead of modelling the crash.
- Valencire.AuthSystem.AddSampleOrder: the same precondition, for the same
  unguarded lookup.
