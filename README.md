# Residential access front-end: vision session, auth state and routes

This project models the core of a React front-end for a residential access
and parking-control system. It also proves properties of that model. Three
parts of the front-end are covered.

- **The vision screen** (`src/components/vision/Vision.js`) is modelled as a
  class `VisionSession.Session`.
  - It holds the component's state: connected flag, processing flag, the
    six parking counters, the video source, the chosen file and the status
    text.
  - It also holds the socket's ready state, the reconnect timers armed by the
    close handler, and the requests still waiting for an upload reply.
  - The commands the client writes to the socket are appended to an
    outbox, so the model can say what was sent and when nothing was sent.
  - There is one method per socket event (open, message, error, close,
    reconnect timer), per user action (start, stop, refresh, file pick,
    source choice), for an upload's reply, and for the mount effect's
    cleanup.
  - The message handler is also a pure function, `VisionProtocol.Dispatch`.
    `OnMessage` is proved to change the display exactly as that function
    says, and the lemmas about streams of messages are stated over it.
  - The class invariant `Valid`:
    - no webcam start is ever sent, because the webcam choice is disabled;
    - every start-video command sent is backed, in order, by the upload
      reply that accepted that path;
    - the timer ref names a pending timer only while one is pending.
- **The auth context** (`src/context/AuthContext.js`):
  - The reducer is a pure function, `Auth.Reduce`, with one lemma per
    action.
  - A well-formedness invariant holds in every reachable state of the model:
    there is no user without a token, and an error is never shown while
    logged in. In the source this relies on every successful login reply
    carrying an access token (see the `Auth.Provider.Login` line under
    "Left out").
  - The mount decision is taken from the stored token and user.
  - For login, the display name and the error fallback are modelled.
  - A class `Auth.Provider` dispatches to the reducer.
- **The routes** (`src/App.js`):
  - The two guards, `ProtectedRoute` and `PublicRoute`.
  - The nine-entry route table, with lookup by path. A path is matched as
    React Router matches these patterns: ignoring the case of ASCII letters
    and any trailing slashes. The match is proved to select at most one
    route.
  - A redirect-following render. It is proved that every path of the table
    reaches a page (or the loading placeholder) within two redirects, and
    that the root path needs both.

Browser behaviour that the source relies on but does not define is written
out explicitly.

- `WebSocket.send`:
  - writes while the socket is OPEN;
  - throws while it is CONNECTING;
  - silently drops the data while it is CLOSING or CLOSED.

  So an upload accepted while the new socket is still connecting does not
  send its start command. The status then shows 'Error al subir video',
  because the throw is caught by the upload's catch block. During the
  3000 ms wait before the reconnect the socket is CLOSED: the send is dropped
  and nothing is shown.
- `close` moves a CONNECTING or OPEN socket to CLOSING.
- When the server starts the closing handshake, the socket becomes CLOSING
  before its close event runs (`VisionSession.Session.OnClosingHandshake`).
  In that window the screen still shows itself connected, but start and stop
  only show 'WebSocket no conectado', refresh does nothing, and an accepted
  upload's start command is dropped without a message
  (`VisionSession.ServerClosingScenario`).
- All reconnect timers share the 3000 ms delay, so they fire in the order
  they were armed.
- JavaScript's `x || fallback` appears as `Js.OrDefault` and `Js.OrZero`. A
  missing or empty string takes the fallback. A missing number becomes 0, and
  a present 0 stays 0.

These behaviours of the code are modelled as written.

- The close handler arms a new reconnect timer on every close. It never
  clears an earlier pending one.
- The close handler leaves the processing flag as it was.
- The mount effect's cleanup closes the socket and clears the timer that
  the ref names. The closing socket later delivers its close event, which
  arms a new reconnect (`VisionSession.TeardownThenCloseScenario`).
- A server `error` status message ends processing with the server's text,
  or 'Error' if it has none.
- A rejected upload only changes the status text.

The module layout:

| module | file | contents |
|---|---|---|
| `Js` | `Js.dfy` | optional values and the `||` defaulting idiom |
| `VisionProtocol` | `VisionProtocol.dfy` | messages, display handler, socket-send rules, button rules, the backing invariant of the outbox |
| `VisionSession` | `VisionSession.dfy` | the `Session` class and a few end-to-end scenarios |
| `Auth` | `Auth.dfy` | reducer, invariant, mount, login, the `Provider` class |
| `Routes` | `Routes.dfy` | guards, route table, rendering and redirects |

## Model

| member | source | states |
|---|---|---|
| `VisionSession.Session.constructor` | src/components/vision/Vision.js:4-21 | initial state: disconnected and not processing, with zero counters, video source, no file and status 'Desconectado'; the mount effect has created the first socket, which is CONNECTING; nothing sent and no timer pending |
| `VisionSession.Session.Connect` | src/components/vision/Vision.js:23-24 | a new CONNECTING socket replaces the one in the ref (the ref is assigned at line 99), with no guard against a live socket; one more connection attempt; nothing else changes |
| `VisionSession.Session.OnOpen` | src/components/vision/Vision.js:26-30 | socket OPEN, connected, status 'Sistema listo'; counters, processing flag, timers and outbox unchanged |
| `VisionSession.Session.OnMessage` | src/components/vision/Vision.js:32-80 | the display becomes exactly what the pure handler gives for the unit; the connection, timers, file and outbox never change on a message |
| `VisionSession.Session.OnError` | src/components/vision/Vision.js:82-85 | only the status text changes, to 'Error de conexión' |
| `VisionSession.Session.OnClosingHandshake` | src/components/vision/Vision.js:87-91 | a server-started close: an OPEN socket becomes CLOSING and any other stays as it is; the connected flag, the display, the timers and the outbox are unchanged until `onclose` runs |
| `VisionSession.Session.OnClose` | src/components/vision/Vision.js:87-97 | socket CLOSED, disconnected, status 'Desconectado'; one more pending reconnect, which the ref now names; earlier timers still pending; processing flag kept; Start, Stop and Refresh all disabled afterwards |
| `VisionSession.Session.ReconnectTimerFires` | src/components/vision/Vision.js:93-96 | the oldest pending timer fires and opens one new CONNECTING socket; the ref's timer is still pending exactly when it was and others remain |
| `VisionSession.Session.StartProcessing` | src/components/vision/Vision.js:116-139 | without an OPEN socket: status 'WebSocket no conectado' and nothing else. With one, no file: 'Iniciando...'. With a file: 'Subiendo video...' and one upload outstanding. Never sends a command itself, and never a webcam start |
| `VisionSession.Session.UploadAndStartVideo` | src/components/vision/Vision.js:152-167 | no file: nothing changes; with a file: status 'Subiendo video...' and one more upload outstanding, nothing sent |
| `VisionSession.Session.UploadFinished` | src/components/vision/Vision.js:167-182 | on status 'success' the path is recorded as accepted; the start-video command naming the reply's file is appended only if the socket is OPEN; on CONNECTING status becomes 'Error al subir video'; on CLOSING/CLOSED nothing visible. Every other reply shows its message or 'Error al subir video' and sends nothing |
| `VisionSession.Session.SendStartVideo` | src/components/vision/Vision.js:169-175 | the success branch, called only by `UploadFinished` with an accepting reply while an upload is outstanding: the reply's path is recorded as accepted; the start-video command for it goes out on an OPEN socket, the throw on a CONNECTING one is reported, and a closing one drops it; the backing invariant is kept |
| `VisionSession.Session.StopProcessing` | src/components/vision/Vision.js:141-150 | without an OPEN socket: status 'WebSocket no conectado' and nothing sent; otherwise exactly the stop command is appended and the display waits for the server |
| `VisionSession.Session.RefreshStats` | src/components/vision/Vision.js:193-199 | appends the stats request only on an OPEN socket, otherwise does nothing; never changes the display |
| `VisionSession.Session.HandleFileChange` | src/components/vision/Vision.js:185-191 | a picked file becomes the video file and the status names it; an empty pick changes nothing |
| `VisionSession.Session.SelectSource` | src/components/vision/Vision.js:272-291 | an enabled choice takes effect; the webcam choice never does, so the source stays the video file |
| `VisionSession.Session.Dispose` | src/components/vision/Vision.js:106-113 | the socket in the ref is closed (CLOSING unless already closing or closed) and the timer the ref names is cleared if pending; other pending timers remain |
| `VisionSession.RejectedUploadScenario` | src/components/vision/Vision.js:176-178 | an upload reply 'failure' with message 'too large' leaves status 'too large', nothing sent, not processing |
| `VisionSession.AcceptedUploadScenario` | src/components/vision/Vision.js:169-175 | an accepted upload sends exactly one start command with the server's file name; the server's `started` answer makes the screen live with 'LIVE - cam1' |
| `VisionSession.ReconnectScenario` | src/components/vision/Vision.js:87-97 | after a close, status 'Desconectado' with one reconnect pending; when it fires, exactly one new socket (the second in total) is CONNECTING |
| `VisionSession.ServerClosingScenario` | src/components/vision/Vision.js:141-150 | after a server-started close and before `onclose`, the screen is still connected, stop and refresh send nothing and show 'WebSocket no conectado', and an accepted upload's start command is dropped |
| `VisionSession.TeardownThenCloseScenario` | src/components/vision/Vision.js:106-113 | teardown leaves no timer pending, but the close event that follows arms one again |
| `VisionProtocol.StatsFrom` | src/components/vision/Vision.js:56-63 | each of the six counters is the message's field when present and 0 when missing |
| `VisionProtocol.LiveStatus` | src/components/vision/Vision.js:67 | the text starts with 'LIVE - ' followed by the source when it is non-empty, otherwise 'Cámara' |
| `VisionProtocol.StatusText` | src/components/vision/Vision.js:65-74 | 'started' gives the live text, 'stopped' gives 'Detenido', 'error' gives the server message or 'Error' |
| `VisionProtocol.ApplyPayload` | src/components/vision/Vision.js:55-75 | a stats message replaces the counters only; a recognised status message sets the processing flag (true exactly for 'started') and the status text; anything else leaves the display as it is |
| `VisionProtocol.StatsRoundTrip` | src/components/vision/Vision.js:56-63 | a full snapshot sent as a stats message comes back unchanged |
| `VisionProtocol.PartialStatsMessage` | src/components/vision/Vision.js:56-63 | a message with only total zones 5 and parked 2 shows 5, 0, 0, 2, 0, 0 |
| `VisionProtocol.StatsReplaceWholesale` | src/components/vision/Vision.js:55-63 | the counters after a stats message do not depend on the counters before it; status and processing flag untouched |
| `VisionProtocol.WhatChangesWhat` | src/components/vision/Vision.js:55-75 | counters change only on a stats message; processing flag and status text only on a recognised status message |
| `VisionProtocol.UnknownMessagesIgnored` | src/components/vision/Vision.js:64-75 | unknown message types and unknown status sub-kinds leave the display untouched |
| `VisionProtocol.OnlyParsedUnitsAct` | src/components/vision/Vision.js:32-80 | removing the binary frames and the unparseable texts from a stream does not change where it leads |
| `VisionProtocol.LastStats` | src/components/vision/Vision.js:55-63 | the chosen unit is a stats message of the stream and no stats message comes after it; none is chosen exactly when the stream has no stats message |
| `VisionProtocol.LastStatusUpdate` | src/components/vision/Vision.js:64-75 | the chosen unit is a recognised status message of the stream and none comes after it; none is chosen exactly when the stream has none |
| `VisionProtocol.LatestStatsWin` | src/components/vision/Vision.js:55-63 | after any stream the counters are those of its last stats message, or the earlier ones if it had none |
| `VisionProtocol.LatestStatusWins` | src/components/vision/Vision.js:64-75 | after any stream the processing flag and status are those of its last recognised status message; processing holds exactly when that message said 'started' |
| `VisionProtocol.SendOn` | src/components/vision/Vision.js:171-181 | a send goes out exactly on an OPEN socket and throws exactly on a CONNECTING one |
| `VisionProtocol.AfterClose` | src/components/vision/Vision.js:107-109 | closing never leaves the socket OPEN or CONNECTING, and a closing or closed socket stays as it is |
| `VisionProtocol.UploadFailureText` | src/components/vision/Vision.js:176-182 | a non-success reply shows its non-empty message; a failed request or a reply without message shows 'Error al subir video' |
| `VisionProtocol.ButtonRules` | src/components/vision/Vision.js:313-345 | Start is enabled iff connected, not processing and a file is chosen for a video source; Stop iff connected and processing; never both; each needs the connection |
| `VisionProtocol.BackedAfterStartVideo` | src/components/vision/Vision.js:169-175 | sending the start command together with its accepted upload keeps every sent start command backed by an accepted upload of the same path |
| `Auth.LoginStartEffect` | src/context/AuthContext.js:15-16 | LOGIN_START sets loading, clears the error, keeps user and token |
| `Auth.LoginSuccessEffect` | src/context/AuthContext.js:17-18 | LOGIN_SUCCESS gives exactly the payload's user and token, not loading, no error |
| `Auth.LoginFailureEffect` | src/context/AuthContext.js:19-20 | LOGIN_FAILURE gives no user, no token, not loading, and the payload as error |
| `Auth.LogoutEffect` | src/context/AuthContext.js:21-22 | LOGOUT gives the same logged-out state from any state, so it is idempotent |
| `Auth.NarrowActionsEffect` | src/context/AuthContext.js:23-28 | SET_LOADING changes only loading, CLEAR_ERROR only the error, any other type nothing |
| `Auth.ReducePreservesWellFormed` | src/context/AuthContext.js:13-30 | every action keeps "no user without token, no error while logged in" |
| `Auth.ReduceAllPreservesWellFormed` | src/context/AuthContext.js:13-30 | any sequence of actions keeps the state well formed |
| `Auth.ReachableStatesWellFormed` | src/context/AuthContext.js:6-30 | every state reachable from the initial state is well formed |
| `Auth.ReduceAllAppend` | src/context/AuthContext.js:13-30 | dispatching two action lists one after the other is dispatching their concatenation |
| `Auth.MountAction` | src/context/AuthContext.js:39-46 | LOGIN_SUCCESS with the stored token and the decoded user if and only if both entries are non-empty, otherwise SET_LOADING false |
| `Auth.MountOutcome` | src/context/AuthContext.js:35-47 | after mount nothing is loading and there is no error; logged in with the stored entries exactly when both exist, otherwise the initial state with loading ended |
| `Auth.NameUser` | src/context/AuthContext.js:58 | the name is a prefix of the e-mail without '@' that ends at the first '@' or at the end |
| `Auth.NameUserUnique` | src/context/AuthContext.js:58 | those three facts determine the name: any such prefix is the name |
| `Auth.NameUserWithoutAt` | src/context/AuthContext.js:58 | an e-mail without '@' is its own name |
| `Auth.LoginErrorMessage` | src/context/AuthContext.js:69 | the response's detail when non-empty, otherwise 'Error al iniciar sesión' |
| `Auth.LoginOutcomeEffect` | src/context/AuthContext.js:49-73 | from any state: a granted login ends logged in as the e-mail's user with its display name and the token, and returns success; a refused one ends logged out with the same error message that it returns; loading is false either way |
| `Auth.Provider.constructor` | src/context/AuthContext.js:33 | the provider starts in the initial state |
| `Auth.Provider.Dispatch` | src/context/AuthContext.js:33 | the state becomes the reducer's result for the action |
| `Auth.Provider.Mount` | src/context/AuthContext.js:35-47 | the state becomes the reducer's result for the mount decision |
| `Auth.Provider.Login` | src/context/AuthContext.js:49-73 | the state results from LOGIN_START and then the outcome's action; the reply matches the outcome; well-formedness is kept |
| `Auth.Provider.Logout` | src/context/AuthContext.js:75-78 | the state becomes the reducer's logged-out result |
| `Auth.Provider.ClearError` | src/context/AuthContext.js:80-82 | the state becomes the reducer's result for CLEAR_ERROR |
| `Routes.ProtectedRoute` | src/App.js:15-23 | placeholder while loading; once loaded, the children exactly for a signed-in user, otherwise a redirect to '/login' |
| `Routes.PublicRoute` | src/App.js:25-33 | placeholder while loading; once loaded, a redirect to '/dashboard' exactly for a signed-in user, otherwise the children |
| `Routes.GuardsComplementary` | src/App.js:15-33 | while loading both guards show the placeholder; afterwards exactly one of them shows its children |
| `Routes.Lookup` | src/App.js:40-120 | a found element belongs to a route with that path; no element means no route has that path |
| `Routes.CanonicalMatches` | src/App.js:40-120 | for a lower-case pattern without trailing slash, React Router's match (letter case ignored, trailing slashes ignored) holds exactly when the path's canonical spelling is the pattern |
| `Routes.TablePatterns` | src/App.js:41-119 | every route path of the table is such a canonical pattern |
| `Routes.RenderMatchesRoute` | src/App.js:40-120 | a path renders nothing exactly when no route matches it; when a route matches, its element is what renders |
| `Routes.AtMostOneRouteMatches` | src/App.js:40-120 | no path matches two routes, so the first match is React Router's choice |
| `Routes.TrailingSlashIgnored` | src/App.js:40-120 | a non-empty path and the same path with one more slash render the same screen |
| `Routes.CaseIgnored` | src/App.js:40-120 | a path and its lower-case spelling render the same screen |
| `Routes.LookupFindsRoute` | src/App.js:40-120 | with distinct paths, a route's own path finds that route's element |
| `Routes.TablePathsDistinct` | src/App.js:41-119 | no path occurs twice in the table |
| `Routes.OnlyLoginIsPublic` | src/App.js:41-119 | nine routes; the public one is exactly '/login', the protected ones are the seven after it, the only redirect is '/' |
| `Routes.PagesOfTable` | src/App.js:41-119 | the public route shows the login page; protected routes never do; the redirect goes to '/dashboard' |
| `Routes.RootRedirects` | src/App.js:119 | '/' redirects to '/dashboard' whatever the auth state |
| `Routes.RedirectTargets` | src/App.js:41-58 | '/login' renders behind the public guard and '/dashboard' behind the protected one |
| `Routes.RenderRoute` | src/App.js:41-119 | every route's own path renders that route's element |
| `Routes.PagesNeedUser` | src/App.js:15-119 | a page is shown only once loading is over; a page other than login only to a signed-in user, the login page only to nobody signed in |
| `Routes.FollowDashboard` | src/App.js:49-58 | '/dashboard' settles within one redirect: placeholder, the login page, or the dashboard |
| `Routes.FollowLogin` | src/App.js:41-58 | '/login' settles within one redirect: placeholder, the login page, or the dashboard |
| `Routes.SettleFrom` | src/App.js:15-119 | every element of the table settles within two redirects |
| `Routes.RedirectsSettle` | src/App.js:15-119 | every path of the table settles within two redirects, however many more are allowed: the placeholder while loading, the login page for nobody signed in, otherwise its own page (the dashboard for '/login' and '/'); no redirect loops |
| `Routes.RootNeedsTwoHops` | src/App.js:119 | for nobody signed in, '/' is still a redirect (to '/login') after one redirect, so the bound of two is exact |

## Left out

- Frame display:
  - Not modelled: building the object URL, decoding the image, drawing on the canvas, and revoking the URL (Vision.js:33-49).
  - A binary frame leaves the modelled state unchanged. That is all the model says about it.
- `JSON.parse` and `JSON.stringify` are left out. An inbound text unit arrives already classified, as a parsed object or as unparseable. An outbound command is a datatype. A field of the wrong JSON type counts as missing.
- Counters: a non-numeric truthy counter, such as a string, is not modelled. Counters are integers or missing.
- Timers:
  - Real time is not modelled. A timer is a pending count plus the one the ref names, and timers fire in the order they were armed.
  - `clearTimeout` on a timer that has already fired is not modelled.
- Events from an abandoned earlier socket:
  - Every socket keeps its own handlers. The model applies each event to the socket the ref holds now.
  - The onopen or onclose of a socket that the ref no longer holds is not told apart from the current socket's events.
- Async interleaving:
  - In the vision screen, only the points the code awaits are separate steps: the upload request and its reply.
  - React's batching of state updates and stale closures are not modelled.
  - A handler sees the current state.
- StartProcessing: the 'Error al iniciar' catch (Vision.js:135-138) is not a separate path.
  - The webcam source cannot be chosen.
  - Every error in the upload is caught inside `uploadAndStartVideo`.
- The upload request:
  - The HTTP status code is not modelled.
  - A response body that is not valid JSON, or a failed request, counts as a transport error.
- Rendering markup is not modelled: layout, styles and the labels of the statistics cards. The disabled attributes are modelled as predicates, but the file input's enablement and visibility are not.
- Browser storage:
  - Reads are inputs to the mount decision.
  - The writes in `login` are not modelled.
  - `authService.logout` is not modelled; it lives in `src/services/authService.js`, which is not part of this model.
- Auth.MountAction: `JSON.parse` of a corrupt stored user would throw. The stored user is taken as already decoded, so that throw is not modelled.
- Auth.LoginErrorMessage: a `detail` that is not a string is not modelled. For example, a validation error can carry an array there.
- Auth.Provider.Login: does not model the following:
  - the `await` of the auth service (AuthContext.js:52) as a separate step: the outcome is an argument, and LOGIN_START and the outcome's action are dispatched in one step, so no other action can come between them;
  - an `access_token` missing from a successful reply, which would store a user without a token and break the well-formedness invariant;
  - an e-mail that is not a string;
  - an exception thrown by the storage writes.
- `useAuth` and its error outside a provider (AuthContext.js:98-104) are not modelled; they are plumbing.
- Route matching: React Router's ranking is not modelled. A path matches at most one route of the table (`Routes.AtMostOneRouteMatches`), so a first-match lookup finds the same route. An unmatched path renders nothing, which is `None`.
- Routes.Render: does not decode percent-encoded characters before matching and has no basename. Letter case is folded for ASCII letters only, as a case-insensitive regular expression without the Unicode flag folds them against these ASCII patterns.
- Routes: the `Layout` wrapper around the protected pages is not modelled, nor are the pages themselves (dashboard, residents, vehicles, visitors, infractions, cameras, login form). Each page is a named screen. Paths outside the table are not followed further.
- The HTTP service wrappers under `src/services/` are not part of this model.
- Console logging (`console.log`, `console.error`) is left out; it changes no state.
