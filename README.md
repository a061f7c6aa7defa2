# Board session controller of a collaborative whiteboard

This project models the client side of the whiteboard's collaboration
protocol, as the board component implements it. The model covers:

- entering a board, which clears the store, joins the board's socket group
  and asks storage for the saved elements;
- the three socket messages scoped to the board: the one-time
  `loadCanvas_<id>`, the incremental `receiveDrawingUpdate_<id>` and
  `unauthorized_<id>`;
- the outcome of the storage fetch;
- leaving the board (the effect's cleanup);
- pointer input, which is guarded by the authorization flag and broadcasts
  `drawingUpdate`, including the debounced move handler, whose timer runs
  over the values of the render it was called in;
- the Ctrl+Z / Ctrl+Y dispatch to undo and redo, and the text box's blur,
  neither of which checks authorization;
- the per-type paint pass over the element list.

Modules:

- `Elements`: the element value. Its `type` is one of LINE, RECTANGLE,
  CIRCLE, ARROW, BRUSH, TEXT, or an unrecognized tag.
- `Render`: `PaintFor` gives the paint call for one element. `Render` is the
  whole pass as a function. `RenderPass` is the `forEach` loop, proved equal
  to `Render`. The lemmas say the pass paints exactly the elements before
  the first unknown one, and throws exactly when there is one.
- `Session`: one transition function per event over a `State` value. Events
  come in three groups: entering a board, an event delivered to a handler
  of one entry run (`RunEvent`), and user input (`Input`). `Step` and `Run`
  apply events and event sequences. The module also holds the invariant
  `Consistent` and the properties of whole event sequences.
- `Board`: class `BoardSession`. It has one field per value the handlers
  read or write and one method per handler. Each method keeps `Valid()` and
  ends in the state the matching `Session` transition gives.

Each run of the entry effect has its own `mounted` and `initialDataLoaded`
flags. The model keeps them per run in `entries`, and every handler names
the run that registered it. A stale fetch from an earlier board is therefore
modelled as the handler of that earlier run, which its own cleared `mounted`
flag keeps inert. A run's three socket listeners are registered exactly while
its `mounted` flag is set, because the cleanup clears the flag and removes
them together.

Two behaviours of the code are worth stating plainly:

- The storage fetch never looks at `initialDataLoaded` and never sets it. So
  when the socket load and the fetch race, the later of the two ends up in
  the element list, not the first one to arrive
  (`Session.LaterLoadSourceWins`).
- The socket load writes history as a one-element list of snapshots
  (`History.Snapshots`). The fetch writes the flat element list itself
  (`History.Flat`). The model keeps both shapes, and
  `Session.LoadPathsDisagreeOnHistory` shows they differ.

A call of the debounced move handler does not run its body. It records a
`PendingMove` with the `isAuthorized`, `id` and `elements` of its render, and
the body runs when the event `MoveTimerFired` names that call. A call that
goes to the same render's debounced function as the previous call clears
that call's timer first.

Missing values are modelled as follows. A missing `id` or token (undefined,
null or empty, all falsy) is the empty string. A null `loadCanvas` payload or
a missing `response.data.elements` is `None`.

## Model

| member | source | states |
|---|---|---|
| `Render.RenderPass` | src/components/Board/index.js:149-173 | the loop makes exactly the paint calls, and throws exactly when, the specification `Render` says |
| `Render.RenderPaintsKnownPrefix` | src/components/Board/index.js:149-172 | the pass paints elements in list order, one call per element and chosen by type: the cached sketch for the four rough shapes, a filled path for BRUSH, `fillText` at (x1, y1) for TEXT; when it throws, the element at that position has an unknown type, and neither it nor any later element is painted; otherwise every element is painted |
| `Render.RenderAbortsIffUnknown` | src/components/Board/index.js:170-172 | the pass throws if and only if some element's type is not one of the six tool items |
| `Session.RunIsMonotone` | src/components/Board/index.js:52-53 | across any event sequence, existing runs keep their board, a cleared `mounted` flag is never set again, a set loaded flag is never cleared, and outbox, requests and store calls only grow |
| `Session.LaterLoadsAreIgnored` | src/components/Board/index.js:60-66 | after a run's first `loadCanvas`, whatever happens in between, every later `loadCanvas` for that run leaves the state unchanged |
| `Session.LeftRunIgnoresItsHandlers` | src/components/Board/index.js:109-113 | after a run's cleanup, whatever happens in between, none of its handlers (load, update, unauthorized, fetch result, cleanup) changes elements, history, the authorized flag or anything else |
| `Session.AuthorizationIsNeverRestored` | src/components/Board/index.js:74-79 | once authorization is revoked, no event sequence grants it back; every later debounced move call captures the revoked flag, and earlier calls keep the flag they captured |
| `Session.RevocationSilencesPointer` | src/components/Board/index.js:192-230 | once authorization is revoked and the move timers scheduled while it was granted have fired or been cleared, no `drawingUpdate` is sent and no pointer handler of the store is called: only joins, undo, redo and the blur handler can follow |
| `Session.StaleMoveStillFires` | src/components/Board/index.js:200-218 | a move called while authorized, followed by `unauthorized`, still calls the store's move handler and emits `drawingUpdate` with the captured list when its timer fires |
| `Session.OnlyPointerInputsAreGated` | src/components/Board/index.js:127-133 | the inputs whose effect depends on `isAuthorized` are exactly mouse down, mouse move and mouse up; key presses, the text box's blur and a move timer act alike with or without rights |
| `Session.UpdatesAreNeverEmpty` | src/components/Board/index.js:213-228 | across any event sequence, every `drawingUpdate` sent carries a non-empty element list |
| `Session.UnloadedUntilLoad` | src/components/Board/index.js:61-62 | a run's loaded flag stays clear through any events that do not deliver `loadCanvas` to it |
| `Session.UpdatesBeforeLoadAreDropped` | src/components/Board/index.js:68-72 | until a run's `loadCanvas` arrives, whatever happens in between, a drawing update to that run changes nothing |
| `Session.FetchedListSurvivesEarlyUpdate` | src/components/Board/index.js:68-100 | after entering a board, a fetch followed by a drawing update, with no socket load yet, leaves the fetched list: the update is dropped |
| `Session.LaterLoadSourceWins` | src/components/Board/index.js:60-100 | after entering a board, a fetch followed by a socket load leaves the socket's list with snapshot history, and a socket load followed by a fetch leaves the stored list with flat history |
| `Session.LoadPathsDisagreeOnHistory` | src/components/Board/index.js:63-99 | for the same list, the socket load and the fetch give the same elements but different history values |
| `Session.StepPreservesConsistent` | src/components/Board/index.js:42-56 | every event keeps the invariant: the joined boards and the requested boards are, in order, the boards of the entry runs, none of them empty, and `canvasId` is the board of the latest run |
| `Session.RunPreservesConsistent` | src/components/Board/index.js:42-56 | that invariant holds after any event sequence that starts in it |
| `Board.BoardSession.constructor` | src/components/Board/index.js:37-39 | a mounted board starts authorized, with no runs and nothing sent, over the store's current values |
| `Board.BoardSession.Enter` | src/components/Board/index.js:42-106 | the entry effect, ending in the state `Session.Enter` gives and keeping the invariant |
| `Board.BoardSession.HandleLoadCanvas` | src/components/Board/index.js:60-66 | `handleLoadCanvas`, ending in the state `Session.LoadCanvas` gives |
| `Board.BoardSession.HandleDrawingUpdate` | src/components/Board/index.js:68-72 | `handleDrawingUpdate`, ending in the state `Session.ReceiveDrawingUpdate` gives |
| `Board.BoardSession.HandleUnauthorized` | src/components/Board/index.js:74-79 | `handleUnauthorized`, ending in the state `Session.Unauthorized` gives |
| `Board.BoardSession.FetchSucceeded` | src/components/Board/index.js:87-100 | the fetch's success path, ending in the state `Session.FetchResolved` gives |
| `Board.BoardSession.FetchFailed` | src/components/Board/index.js:101-103 | the fetch's error path leaves the state unchanged |
| `Board.BoardSession.Cleanup` | src/components/Board/index.js:109-117 | the cleanup clears the run's `mounted` flag and changes nothing else |
| `Board.BoardSession.HandleMouseDown` | src/components/Board/index.js:192-195 | `handleMouseDown`, ending in the state `Session.MouseDown` gives |
| `Board.BoardSession.HandleMouseMove` | src/components/Board/index.js:197-210 | a call of the debounced `handleMouseMove`: clears the previous call's timer when it is the same render's, and records this render's `isAuthorized`, `id` and `elements`, ending in the state `Session.DispatchMove` gives |
| `Board.BoardSession.FireMoveTimer` | src/components/Board/index.js:200-219 | a move timer fires at most once and runs the body over the captured values: when they say authorized, one store call and a `drawingUpdate` of the captured list if non-empty, ending in the state `Session.FireMove` gives |
| `Board.BoardSession.HandleMouseUp` | src/components/Board/index.js:221-230 | `handleMouseUp`, ending in the state `Session.MouseUp` gives |
| `Board.BoardSession.HandleKeyDown` | src/components/Board/index.js:127-133 | `handleKeyDown`, ending in the state `Session.KeyDown` gives |
| `Board.BoardSession.HandleTextAreaBlur` | src/components/Board/index.js:246 | the text box's `onBlur` passes its value to the store's blur handler, with no authorization check, ending in the state `Session.TextBlur` gives |

## Left out

- The board store is not part of this model. It owns `boardMouseDownHandler`, `boardMouseMoveHandler`, `boardMouseUpHandler`, `undo`, `redo` and `textAreaBlurHandler`. Calls to its handlers, including `textAreaBlurHandler` with the text box's value, are recorded in order as `storeCalls`. What they do to elements and history (element creation, commit, undo, redo) is not modelled, so here those values keep their pre-call contents.
- `debounce` (src/components/Board/index.js:197-207) is timer-driven. The 10 ms wait is not modelled: which timers fire, and when, is left to the event sequence. Renders are not modelled either, so whether a move call goes to the same render's debounced function as the previous one is the `sameRender` argument, and the values a render captures are taken to be the current ones.
- React's dependency comparison is not modelled. `Enter` stands for each run of the entry effect, and `Cleanup` for each run of its cleanup. React orders them (a run's cleanup precedes the next run); the model does not assume that order.
- Socket.io transport and HTTP mechanics are left out, because they are I/O. Incoming messages and fetch outcomes are method calls. Outgoing ones are appended to `outbox` and `requests`. The channel-name routing `<event>_<id>` is represented by the run index each handler carries.
- `Board.BoardSession.HandleDrawingUpdate` and `Session.ReceiveDrawingUpdate`: the payload is always a list; a null `receiveDrawingUpdate` payload, which the source would store as the element list, is not modelled.
- Painting is left out because it uses foreign libraries and floating-point geometry: roughjs drawing, `perfect-freehand` outlines, `Path2D`, canvas state (`save`, `restore`, `fillStyle`, `font`) and `clearRect`. Each paint call is an abstract `PaintOp` record, and coordinates, sizes and pressures are integers.
- The `alert` in the unauthorized handler, canvas sizing from the window (src/components/Board/index.js:120-124), textarea focus (181-188) and the JSX layout are left out, because they are user interface. The text box exists only while the tool is writing; the model lets a blur arrive at any time.
- Cross-client convergence and last-message-wins between peers are left out, because they are distributed behaviour. Only one client's reactions are modelled.
- src/components/Sidebar/index.js, src/App.js and src/utils/socket.js are not part of this model. They hold canvas listing and sharing over HTTP, routing, and socket construction. The sidebar also sets the store's `canvasId`, so `Session.Consistent`'s clause that `canvasId` is the board of the latest run holds only for the board component's own writes.
