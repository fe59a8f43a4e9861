# Session and alert controller of a React client, in Dafny

This project models the core of a small browser client: who is signed in, which
alerts are on screen, and how an alert goes away.

- **App** is the top-level component. It owns two state fields:
  - `user`: `null`, or the credential returned by sign-in;
  - `msgAlerts`: the list of alerts, oldest first.
  Its four handlers change those fields:
  - `setUser` replaces the user;
  - `clearUser` sets it back to `null`;
  - `msgAlert` appends an alert under a fresh id;
  - `deleteAlert` filters out every alert that has a given id.
  The routes `/sign-out` and `/change-password` are wrapped in `AuthenticatedRoute`. They render only for a signed-in user; anyone else is sent to `/`.
- **AutoDismissAlert** is the component that shows one alert. It starts shown. When it mounts, it schedules a 5000 ms timer that calls `handleClose`. The close button calls the same `handleClose`. `handleClose` hides the alert. Each render while the alert is hidden schedules a 300 ms timer that calls App's `deleteAlert` with the alert's own id. Unmounting clears the 5000 ms timer.

Modules:
- `Alerts` (alerts.dfy): the alert entries and the pure filter by id, which App uses to build each new list. It also holds the lemmas about this filter: order, absence, idempotence, distinct ids, and the round trip with an append.
- `RouteGuard` (route_guard.dfy): App's route table and the guard decision `Decide(user, path)`, which returns `Allow` or `RedirectTo("/")`.
- `AppController` (app.dfy): class `App`. Its handlers update its fields. Its invariant `Valid()` says that the ids on screen are pairwise distinct and all below the id counter.
- `AutoDismiss` (auto_dismiss_alert.dfy): class `AutoDismissAlert`. It has the `show` flag, `timeoutId`, the component's life phase, and the timers it has scheduled, as a map from handle to timer. Timer firings are events that name a handle.
- `Scenarios` (scenarios.dfy): three scenarios, as call sequences. One signs in, then signs out, and watches the guard. In another an alert is left to expire until the list is empty again. In the third, an alert is deleted and sign-out raises a new one under a different id. In the fourth, a delete timer scheduled before unmount still fires after it.
- `Session`, `Wrappers`: the credential type, and `Option` in place of `null`.

The model stands in for some parts of the system:
- Time is not modelled. The 5000 ms and 300 ms delays are labels on timers.
- Any pending timer may fire next.
- `uuid()` is a counter that only grows, so every id it returns is fresh.
- `setState` is an immediate update.

## Model

| member | source | states |
|---|---|---|
| `Alerts.FilterOutId` | src/App.js:47 | the result is no longer than the list, and an entry is in it exactly when it is in the list and its id differs from the deleted id |
| `Alerts.FilterOutIdConcat` | src/App.js:47 | filtering a concatenation gives the concatenation of the filtered parts, so what survives keeps its relative order |
| `Alerts.FilterOutIdKeepsOrder` | src/App.js:47 | any two kept entries at positions i < j appear in the result at positions p < q |
| `Alerts.FilterOutIdAbsent` | src/App.js:43-48 | deleting an id that no entry carries leaves the list unchanged |
| `Alerts.FilterOutIdIdempotent` | src/App.js:43-48 | deleting the same id twice equals deleting it once |
| `Alerts.FilterOutIdKeepsDistinct` | src/App.js:43-48 | deleting keeps the ids pairwise distinct |
| `Alerts.FilterOutIdRemovesOne` | src/App.js:41-48 | with distinct ids, deleting an id that is present removes exactly one entry |
| `Alerts.AppendFreshKeepsDistinct` | src/App.js:56-71 | appending an alert whose id is new keeps the ids pairwise distinct |
| `Alerts.AppendThenDelete` | src/App.js:43-71 | deleting the fresh id of the alert just appended gives back the list from before the append |
| `RouteGuard.RequiresSignIn` | src/App.js:110-122 | true exactly when some authenticated route of the table has the requested path |
| `RouteGuard.Decide` | src/App.js:9-11 | the only redirect goes to `/`; the decision is Allow exactly when a user is signed in or the path is not behind an authenticated route |
| `RouteGuard.GuardedPaths` | src/App.js:114-122 | for `/sign-out` and `/change-password`: no user gives a redirect to `/`, and a signed-in user gives Allow |
| `RouteGuard.UnguardedPaths` | src/App.js:99-109 | every other path, such as `/sign-up`, `/sign-in` and `/`, is allowed whoever is signed in |
| `AppController.App.constructor` | src/App.js:24-33 | the initial state has no user and an empty alert list, and the invariant holds |
| `AppController.App.SetUser` | src/App.js:36 | the user becomes the given value whatever it was; the alerts and the id counter are unchanged |
| `AppController.App.ClearUser` | src/App.js:39 | the user becomes null, which also makes the call idempotent; the alerts are unchanged; afterwards both guarded paths redirect to `/` |
| `AppController.App.DeleteAlert` | src/App.js:43-49 | the new list is the old list filtered by id; no entry with that id is left; user and counter are unchanged; ids stay distinct |
| `AppController.App.MsgAlert` | src/App.js:56-72 | the list grows by exactly one entry, placed last, carrying the given heading, message and variant and an id that no earlier entry carries and that is never handed out again; the earlier entries are unchanged and in order; the user is unchanged |
| `AppController.App.SignOut` | src/components/SignOut/SignOut.js:12-29 | whatever the remote call's outcome, a "Signed Out Successfully" success alert is appended under an id never handed out before, and then the user is null |
| `AutoDismiss.AutoDismissAlert.constructor` | src/components/AutoDismissAlert/AutoDismissAlert.js:9-20 | a new alert is shown, has no timeout id and no timer, and is not mounted yet |
| `AutoDismiss.AutoDismissAlert.ComponentDidMount` | src/components/AutoDismissAlert/AutoDismissAlert.js:23-27 | exactly one timer is pending afterwards: a 5000 ms timer that calls `handleClose`, whose handle is stored in `timeoutId` |
| `AutoDismiss.AutoDismissAlert.ComponentWillUnmount` | src/components/AutoDismissAlert/AutoDismissAlert.js:30-35 | the timer in `timeoutId` is cleared (nothing happens if it already fired), so no auto-close timer is left; every pending delete timer stays pending, unchanged, because handles are never reused |
| `AutoDismiss.AutoDismissAlert.Render` | src/components/AutoDismissAlert/AutoDismissAlert.js:45-51 | a shown alert schedules nothing; a hidden alert schedules one more 300 ms timer that deletes this alert's own id |
| `AutoDismiss.AutoDismissAlert.HandleClose` | src/components/AutoDismissAlert/AutoDismissAlert.js:39 | only a mounted alert can take the update; afterwards it is hidden whatever `show` was before, and the render that follows schedules a delete |
| `AutoDismiss.AutoDismissAlert.CloseClicked` | src/components/AutoDismissAlert/AutoDismissAlert.js:63 | the close button has exactly the effect of `handleClose` |
| `AutoDismiss.AutoDismissAlert.TimerFires` | src/components/AutoDismissAlert/AutoDismissAlert.js:23-51 | a handle that is not pending does nothing; the auto-close timer has the effect of `handleClose` and can only fire while the alert is mounted; a delete timer returns this alert's own id, and only while it is hidden; `show` never goes back to true |
| `Scenarios.SignInThenOut` | src/App.js:114-122 | after `setUser`, `/change-password` is allowed; after `clearUser` it redirects to `/` |
| `Scenarios.IdsNotReused` | src/App.js:43-72 | after `msgAlert`, `deleteAlert` of that id and sign-out's alert, the second id differs from the first and is the only one on screen |
| `Scenarios.DeleteOutlivesUnmount` | src/components/AutoDismissAlert/AutoDismissAlert.js:30-51 | after the auto-close timer and two delete timers have fired, a delete scheduled by a later render survives unmount and, when it fires, asks to delete the alert's own id |
| `Scenarios.AlertExpires` | src/components/AutoDismissAlert/AutoDismissAlert.js:23-51 | the sign-out alert is the only alert on screen; once the auto-close timer and then the fade timer fire, the alert is hidden and App's list is empty |

`AutoDismiss.AutoDismissAlert.Valid` is the invariant every method of the alert keeps:
- the only auto-close timer is the one whose handle is in `timeoutId`, and it exists only while the alert is mounted;
- a delete timer exists only while the alert is hidden, and it always carries the alert's own id.

So for each alert, hiding comes strictly before any request to remove it.

## Left out

- Network calls (`src/api/auth.js`) are left out. They go through axios and a configuration module; both are external. Sign-out is modelled with its outcome as a parameter, and the outcome does not change the result.
- `src/components/SignUp/SignUp.js` is left out: it is form handling and a promise chain that ends in `setUser` and `msgAlert`, and both of those are modelled.
- The sign-in and change-password components are not part of this model.
- `src/components/AuthenticatedRoute/AuthenticatedRoute.js` is not part of this model. The guard follows the behaviour App's comment gives it (src/App.js:9-10): render for a signed-in user, otherwise go to `/`.
- react-router's path matching (prefix matching, several routes matching at once) is left out: a request matches a route only when the paths are equal.
- `history.push('/')` after sign-out is navigation, which is left out.
- JSX rendering, the Header, Bootstrap and SCSS are left out.
- The text of `messages.signOutSuccess` lives in a file that is not part of this model. It is a parameter.
- React's batching of `setState` is not modelled. Each update takes effect when it is called.
- `uuid()` is random in the source. The model uses a counter, which makes ids unique by construction rather than with high probability.
- Real time is left out. Any pending timer may fire next, and the model does not force the 300 ms timer to fire after a 5000 ms one.
- Timer handles are numbered per component. Browser handles are global, but a component only ever clears its own.
- `AppController.App.MsgAlert` and `AppController.App.SignOut` return the new alert's id. The source's `msgAlert` returns nothing (src/App.js:56-72), and SignOut never sees the id. The returned id is a modelling convenience: `Scenarios.AlertExpires` uses it to build the alert component.

Facts about the source that the model keeps:
- The variant is whatever string the caller passes (src/App.js:54-56, 69). App does not check it.
- `show` lives in each AutoDismissAlert (src/components/AutoDismissAlert/AutoDismissAlert.js:14-16), not in App's `msgAlerts` entries.
- Every render while the alert is hidden schedules another delete (src/components/AutoDismissAlert/AutoDismissAlert.js:46-51). So `deleteAlert` can be called more than once for one alert. This is harmless: see `Alerts.FilterOutIdIdempotent`.
- Unmounting clears only the auto-close timer (src/components/AutoDismissAlert/AutoDismissAlert.js:30-35). So a delete timer may still fire after unmount, and it calls App's `deleteAlert`, which is still live. Because ids are never handed out twice, such a late delete cannot remove a newer alert.
