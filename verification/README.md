# Camera-monitoring app shell

A model of the root component `App` of a small mobile camera-monitoring app.
The component holds five pieces of state:

- the current screen, one of home, admin login, admin panel, monitor, notifications and rating;
- an authentication flag;
- a welcome-splash flag;
- an ordered list of cameras, each a name and a stream URL;
- a tutorial-modal flag.

Its handlers change that state:

- a startup check of device storage;
- completion of the splash animation;
- the admin login;
- navigation and the tutorial toggle;
- adding and removing cameras.

One render pass chooses what is visible.

- `wrappers.dfy`: `Option`, for a storage read that finds no value.
- `cameras.dfy` (module `Cameras`): the camera list as a `seq<Camera>`. Adding is an append and removing is a filter by name, both pure functions, with lemmas on order, idempotence and the add/remove round trip.
- `app.dfy` (module `AppShell`): `Screen`, `View` (the foreground subtrees) and `Frame` (what a render pass produces).
  - `Foreground` builds the foreground from six independent conditional pieces, exactly as the component's markup does, and proves that at most one piece appears.
  - `Render` is the pure selection function.
  - The class `App` holds the five fields and has one method per handler. `RenderPass` carries out the render-time redirect from the login screen to the admin panel as one deterministic state step.

## Model

| member | source | states |
|---|---|---|
| `Cameras.Added` | App.tsx:53-55 | adding grows the list by one; every earlier entry keeps its position and value; the new entry is last |
| `Cameras.Removed` | App.tsx:57-59 | afterwards no entry carries the name; an entry is kept exactly when it was in the list and its name differs; the list never grows |
| `Cameras.RemovedCounts` | App.tsx:58 | every entry whose name differs keeps all its copies, and no copy of an entry with the name remains |
| `Cameras.RemovedConcat` | App.tsx:58 | removal distributes over concatenation, so the kept entries stay in their original relative order |
| `Cameras.RemovedSingle` | App.tsx:58 | a single entry is kept exactly when its name differs from the removed name |
| `Cameras.RemovedAbsent` | App.tsx:58 | removing a name no entry carries leaves the list unchanged |
| `Cameras.RemovedIdempotent` | App.tsx:58 | removing the same name twice equals removing it once |
| `Cameras.AddedThenRemoved` | App.tsx:53-59 | adding `n` then removing `n` equals removing `n` alone, whether or not `n` was present |
| `Cameras.AddedThenRemovedRestores` | App.tsx:53-59 | when no entry was named `n`, adding `n` then removing `n` restores the original list exactly |
| `Cameras.AddedThenRemovedOther` | App.tsx:53-59 | adding one name and removing a different name commute |
| `AppShell.Foreground` | App.tsx:67-91 | at most one foreground subtree is shown, and it belongs to the current screen; none is shown only when the login screen is reached while already authenticated or the admin panel while not; the login form appears only when unauthenticated and the admin panel only when authenticated |
| `AppShell.Render` | App.tsx:61-118 | the splash is shown alone exactly while the welcome flag is up; otherwise the foreground is chosen as above; the bottom bar is visible exactly when the screen is neither admin login nor admin panel, so it never sits beside admin content; the tutorial modal follows its flag; a pass asks for a redirect exactly on the login screen while authenticated, and then shows no login form and no bar |
| `AppShell.RedirectSettles` | App.tsx:70-86 | after the redirect the next pass shows the admin panel alone, hides the bar and asks for no further redirect |
| `AppShell.App.constructor` | App.tsx:17-21 | initial state: home screen, not authenticated, welcome up, no cameras, tutorial hidden |
| `AppShell.App.CheckAuthStatus` | App.tsx:25-33 | the flag is raised exactly when the stored value is the string "true"; it is never lowered; nothing else changes |
| `AppShell.App.CompleteWelcome` | App.tsx:35-41 | the welcome flag becomes false and nothing else changes, so the splash is never shown again and a repeated call has no further effect |
| `AppShell.App.HandleLogin` | App.tsx:43-51 | "admin123" with a successful storage write persists and raises the flag and opens the admin panel; "admin123" with a failed write changes no state and shows no alert; any other password raises the alert and changes no state |
| `AppShell.App.SetScreen` | App.tsx:17 | navigation sets the screen to any value and changes nothing else |
| `AppShell.App.SetShowTutorial` | App.tsx:21 | the tutorial toggle sets its flag and changes nothing else |
| `AppShell.App.AddCamera` | App.tsx:53-55 | the camera list becomes `Added` of the old list; all other fields unchanged |
| `AppShell.App.RemoveCamera` | App.tsx:57-59 | the camera list becomes `Removed` of the old list, so no entry with the name remains, and an absent name leaves it unchanged; all other fields unchanged |
| `AppShell.App.RenderPass` | App.tsx:70-76 | returns the frame `Render` gives for the state before the pass; on the login screen while authenticated it moves to the admin panel, and the state after it never asks for another redirect |

## Left out

- Device storage: reading happens in `CheckAuthStatus`, which takes the stored value as an `Option<string>` input. It is a separate event from the constructor, so handlers may run before it, as they can in the app. The write on login is recorded only as the ghost flag `persisted`. Whether that write succeeds is the input `writeOk` of `HandleLogin`; a failed write ends the handler with an unhandled rejection, which is not modelled beyond "nothing changes".
- The fade animation and its opacity value are floating-point timing. Only its completion effect is modelled: `CompleteWelcome` sets the welcome flag to false.
- The incorrect-password alert is a UI side effect. It is recorded only as the `alerted` result of `HandleLogin`.
- Child components, the modal's presentation, icons and styles are presentational. Their callbacks appear as the events `SetScreen`, `SetShowTutorial`, `AddCamera`, `RemoveCamera` and `HandleLogin`, called with arbitrary arguments and in any state. In the app each callback can only fire from the subtree it is handed to. For example, `AddCamera` and `RemoveCamera` are only reachable from the admin panel, which is shown only when authenticated. The model allows more event orders than the app does, so what it proves about every order also holds for the app's orders.
- The unused device-information import is not modelled.
- React's re-render scheduling and the asynchronous race between the startup read and user taps are not modelled. Each handler is one atomic step.
