# spaceapp main process: window slots and Google sign-in, in Dafny

This project models the Electron main process of spaceapp (`src/index.js`): the
four window references it keeps (`mainWindow`, `loginWindow`, `registerWindow`,
`authWindow`), the helpers and IPC handlers that reassign them, and the Google
sign-in handshake run by the auth window's `will-redirect` handler. The
handshake is: exchange the authorization code for tokens, fetch the user's
profile, register the user with the spaceapp backend (a 409 "already
registered" is accepted), then log in with the e-mail and a password derived
from it.

Files:

- `wrappers.dfy`: `Option`.
- `google_auth.dfy` (module `GoogleAuth`): the derived password, the redirect
  prefix test, the registration alert, and `Pipeline`, which gives the requests
  the handshake sends and how it ends for any answers of the four HTTP calls.
- `window_slots.dfy` (module `WindowSlots`): the slots as values (each null, an
  open window, or a destroyed one), what every operation does to them, and
  lemmas over arbitrary sequences of events.
- `shell.dfy` (module `Shell`): class `Window`, a stand-in for an Electron
  `BrowserWindow` that records what was done to it, and class `MainProcess`, whose
  fields are the four slots, the stored token and the requests sent. Its
  methods are the helpers and handlers of `src/index.js`. Each one is proved to
  change the slots exactly as the matching `WindowSlots` function says, and to
  close, focus or message exactly the windows the source does.

Network calls, URL parsing and Electron are not called. Each HTTP call is a
parameter holding its answer: a body, or the error axios throws, with its
optional status and message. The `code` query parameter is also a parameter:
the URL did not parse, or the parameter is present or `null`. The IPC bindings
`show-login`, `show-register` and `logout-success`, and `app.whenReady()`,
call `CreateLoginWindow`, `CreateRegisterWindow` and `HandleLogout`.

Behaviour of the code that the model keeps as written:

- A redirect without a `code` parameter is not stopped before the network. The
  token endpoint is called with an empty `code` (the `null` that `searchParams.get`
  returned; `MissingCodeStillExchanged`).
- Closing the auth window does not cancel a handshake that is already running.
  Its `closed` callback only sets `authWindow` to null.
- The registration alert is sent to the current login window, which is then
  closed and replaced by a new one. The catch-all `google-login-failed`
  message is handled the same way.
- Reading `loginWindow.webContents` throws when the slot is null or holds a
  destroyed window. On the registration-failure path this sends control to the
  outer `catch` (`NoLoginWindow`). In the `catch`, `loginWindow?.webContents`
  throws again for a destroyed window. That error leaves the handler after the
  `finally` has run, and no new login window is opened (ending `Unhandled`).
- `createMainWindow`, `createLoginWindow` and `createRegisterWindow` do not
  close a window that is already in their own slot. They replace the reference
  and leave that window open (`Settled(old(mainWindow), true, [])` in
  `CreateMainWindow`, and the same in the others).

## Model

| member | source | states |
|---|---|---|
| `GoogleAuth.FakePasswordRoundTrip` | src/index.js:99-101 | the e-mail is recovered from its derived password (`EmailOf` is its inverse) |
| `GoogleAuth.EmailOfRoundTrip` | src/index.js:99-101 | every password with the `_googleAuth!` suffix is the derived password of the e-mail before it |
| `GoogleAuth.FakePasswordInjective` | src/index.js:99-101 | two e-mails give the same password exactly when they are equal: the derivation is deterministic and one-to-one |
| `GoogleAuth.FakePasswordExample` | src/index.js:99-101 | `ana@x.com` gives `ana@x.com_googleAuth!` |
| `GoogleAuth.FakePassword` | src/index.js:99-101 | the derived password is the e-mail followed by exactly the suffix `_googleAuth!`, with nothing added or removed |
| `GoogleAuth.LocalRedirectExamples` | src/index.js:160-162 | a `http://localhost` redirect is handled; a Google URL is not |
| `GoogleAuth.IsLocalRedirect` | src/index.js:161 | a redirect is handled exactly when the URL is at least as long as `http://localhost` and agrees with it on every position of that prefix |
| `GoogleAuth.Pipeline` | src/index.js:164-216 | the requests form a strict chain: each is sent only if the previous call succeeded, and carries what that call returned (code → token request, access token → userinfo, profile and derived password → register, same e-mail and password → login); login is called exactly when registration succeeded or answered 409; the session token is the login body's; a fatal registration (`Registered` false) ends with its alert (`RegisterErrorMessage`); an unparsable URL sends nothing; a failed call ends in `RequestFailed` carrying that call's own error message (token, userinfo or login), which is what `google-login-failed` forwards |
| `GoogleAuth.ConflictIsRegistration` | src/index.js:190-208 | a 409 from registration gives the same requests and outcome as a successful registration; `Registered` is the `status !== 409` test of src/index.js:198 |
| `GoogleAuth.FatalRegistrationSkipsLogin` | src/index.js:197-207 | any other registration error ends with the "Tente novamente" alert exactly for status 500 and "Erro inesperado" otherwise (no status included), and no login request is sent; `RegisterErrorMessage` is the choice at src/index.js:199-201 |
| `GoogleAuth.ReturningUserScenario` | src/index.js:164-216 | code `abc123`, tokens `AT1`, profile of Ana, register 409, login `ST1`: four requests with the derived password, signed in with `ST1`. The contract-free methods `Shell.ReturningUserSignsIn` and `Shell.GoogleButtonTwice` run the same sign-in, and a double click on the Google button, through the class |
| `GoogleAuth.MissingCodeStillExchanged` | src/index.js:165-175 | a missing `code` still reaches the token endpoint, as an empty `code` (the `null` that `searchParams.get` returned) |
| `WindowSlots.CloseAllExcept` | src/index.js:22-27 | every slot but the kept one ends null; the kept one is untouched |
| `WindowSlots.Open` | src/index.js:29-92 | after a create function only its own slot holds a window; the other three are null |
| `WindowSlots.StartGoogleLogin` | src/index.js:129-158 | the auth slot ends open and the other slots are untouched; when an auth window is already open nothing changes |
| `WindowSlots.Settle` | src/index.js:197-222 | success exactly when login returned a token; the alert reaches the login window exactly when registration was refused and that window is open; the handler escapes exactly when it failed and the login window is destroyed; otherwise the caught fault is reported |
| `WindowSlots.AfterRedirect` | src/index.js:215-225 | every exit of the redirect handler leaves `authWindow` null |
| `WindowSlots.Step` | src/index.js:51-232 | `show-login`, `logout-success` and app start leave only a login window, `show-register` only a register window, `login-success` only a main window; `start-google-login` touches only the auth slot and leaves it open; a foreign redirect changes nothing and a local one frees the auth slot; a `closed` callback nulls its own slot and nothing else; a destroyed window leaves its slot not open and the others untouched |
| `WindowSlots.StepKeepsOneView` | src/index.js:22-228 | no operation, event or handshake outcome makes two of the main, login and register slots non-null |
| `WindowSlots.RunKeepsOneView` | src/index.js:22-228 | the same for every sequence of events |
| `WindowSlots.AppKeepsOneView` | src/index.js:230-232 | from app start, no run ever holds two of the main, login and register windows |
| `WindowSlots.RedirectReleasesAuth` | src/index.js:223-225 | every local redirect leaves the auth slot null, whatever the handshake did |
| `WindowSlots.OpenAuthWindowIsReused` | src/index.js:129-133 | while an auth window is open, repeated `start-google-login` (and events that leave it alone) create no new auth window and keep it open |
| `WindowSlots.AtMostOneAuthWindow` | src/index.js:129-158 | until something closes or replaces the auth window, at most one auth window is ever created |
| `Shell.LoadThenDeliver` | src/index.js:107-109 | messages delivered by the `did-finish-load` listeners come after that event, so `set-token` is never delivered before the page has loaded |
| `Shell.Window.FinishLoad` | src/index.js:107-109 | the `once` listeners run after `did-finish-load`, in order, and only once |
| `Shell.CloseWindow` | src/index.js:17-20 | always returns null; calls `close()` exactly when the window exists and is not destroyed, and changes nothing else |
| `Shell.MainProcess.constructor` | src/index.js:12-15 | all four slots start null |
| `Shell.MainProcess.CloseAllWindowsExcept` | src/index.js:22-27 | every other slot ends null and its window closed if it was open; the kept slot and its window are untouched |
| `Shell.MainProcess.CreateMainWindow` | src/index.js:29-52 | a new main window in its slot, the other three slots null, their open windows closed |
| `Shell.MainProcess.CreateLoginWindow` | src/index.js:54-68 | a new login window in its slot, the other three slots null, their open windows closed |
| `Shell.MainProcess.CreateRegisterWindow` | src/index.js:70-92 | a new register window in its slot, the other three slots null, their open windows closed |
| `Shell.MainProcess.HandleLogout` | src/index.js:94-97 | the main window is closed and only a new login window remains |
| `Shell.MainProcess.OnLoginSuccess` | src/index.js:103-110 | the token is stored; login, register and auth windows are closed; a new main window holds `set-token` until its page loads |
| `Shell.MainProcess.OnClosed` | src/index.js:156-158 | a `closed` callback nulls its own slot and nothing else |
| `Shell.MainProcess.StartGoogleLogin` | src/index.js:129-158 | an open auth window is only focused (no new window); otherwise a new auth window fills the slot; the other slots and windows are untouched |
| `Shell.MainProcess.ReopenLogin` | src/index.js:203-205 | the login window, if any, gets the message and is closed; a new login window is the only window left |
| `Shell.MainProcess.Handshake` | src/index.js:164-216 | sends exactly the requests of `Pipeline`; ends normally after `login-success` or the registration alert; otherwise throws the fault `Settle` reports, having changed nothing but the requests |
| `Shell.MainProcess.OnWillRedirect` | src/index.js:160-227 | only `http://localhost` redirects are prevented and handled, others change nothing; on every exit `authWindow` is null and its window closed; the slots end as `WindowSlots.Step` says; on success the token is stored and the new main window holds `set-token` for after its load; on failure the old login window gets the alert or `google-login-failed` and is replaced |

## Left out

- BrowserWindow options, `loadFile`, `loadURL`, `maximize`, `center` and `setWindowOpenHandler` are Electron UI calls; only their effect on the slots is modelled.
- The consent URL (`qs.stringify` of client id, redirect target, scopes, `access_type`, `prompt`) is not modelled: it reads environment secrets and only feeds `loadURL`.
- axios, `qs.stringify` and `new URL(...)` are replaced by their outcomes. Response bodies are assumed to have their documented fields; a body missing `access_token`, `email` or `token` (JavaScript `undefined`) is not modelled.
- The `id_token` is read by the source but never used; the model carries it and uses nothing of it.
- `createRegisterWindow(userData)`'s `google-user-data` message is not modelled: no caller in `src/index.js` passes `userData`.
- The event loop is not modelled. The handshake runs from redirect to `finally` with no other event in between, so events arriving during its awaits are not covered. One example is the user closing the auth window.
- Electron destroying a window (the user closes it) is the event `WindowDestroyed` in `WindowSlots`. `Shell` has no method for it, but every method handles slots that hold destroyed windows.
- The `set-token` listener reads the module variable `mainWindow` when it fires. The model delivers the token to the window the listener was registered on. The two differ only if the slot changes before the page loads.
- `OnClosed` models a `closed` callback firing right away, and it nulls slot `k` whatever window the slot holds. The model does not capture one thing: Electron emits `closed` only after `close()` has returned, because the page may still cancel the close. So after every reopen at src/index.js:204-205 and 221-222 that closed an open login window, the old window's callback (line 67) is bound to fire later and null the slot that holds the new login window. A later `login-success` (line 105) then leaves that login window open. The model runs each handler to its end, so this delayed callback is not forced to happen.
- electron-store is modelled as the field `storedToken`. `dotenv`, the environment secrets and the TLS override (line 10) are not modelled.
- The `clear-sessions` and `open-external` IPC handlers, `window-all-closed`, and `console.error` logging are not modelled: they are thin wrappers over Electron and Node APIs.
- `src/pages/config/main.js`, `src/pages/index/index.js`, `src/webview-handler.js` and `src/server/websocket-server.js` are not part of this model (DOM, REST calls, socket.io relay and timers).
