/**
 * The board component's session logic as state transitions. Each function
 * below is the effect of one event on the session: entering a board, the
 * three socket messages, the outcome of the storage fetch, leaving, pointer,
 * keyboard and text-box input, and the firing of a debounced move's timer.
 * `Step` and `Run` compose them, and the lemmas state
 * what holds across any sequence of events.
 *
 * Every run of the board-entry effect creates its own closure with the flags
 * `mounted` and `initialDataLoaded`; they are kept per run in `entries`, and
 * a handler is identified by the index of the run that registered it. The
 * three socket listeners of a run are registered while its `mounted` flag is
 * set: the cleanup clears the flag and removes them together.
 */
module Session {
  import opened Elements

  /** The store's history value. The socket load writes a one-entry list of
      snapshots; the storage fetch writes the element list itself. In the
      source both are plain arrays, so an empty history is the same value `[]`
      either way: `Enter` writes it as `Snapshots([])`, and no property below
      depends on that choice. */
  datatype History = Snapshots(snapshots: seq<seq<Element>>) | Flat(items: seq<Element>)

  /** Messages the board emits on the socket. */
  datatype Message =
    | JoinCanvas(canvasId: string)
    | DrawingUpdate(canvasId: string, elements: seq<Element>)

  /** The storage request issued on entry: the board's saved elements, with a bearer token. */
  datatype Request = LoadRequest(canvasId: string, token: string)

  /** Calls into the board store, whose handlers are not part of this model. */
  datatype StoreCall =
    | MouseDownCall | MouseMoveCall | MouseUpCall | UndoCall | RedoCall
    | BlurCall(value: string)

  /** One call of a render's debounced move handler: the `isAuthorized`,
      `id` and `elements` of the render it was made in, which its timer's
      callback uses, and whether that timer has already fired or been cleared. */
  datatype PendingMove = PendingMove(authorized: bool, boardId: string, elements: seq<Element>, done: bool)

  /** The closure flags of one run of the board-entry effect. */
  datatype Entry = Entry(boardId: string, mounted: bool, initialDataLoaded: bool)

  /** What the board sees and changes. `id` is the board's `id` property;
      `elements`, `history` and `canvasId` live in the store; `isAuthorized`
      is component state; `outbox`, `requests` and `storeCalls` record, in
      order, what was sent to the socket, to storage and to the store;
      `pendingMoves` holds every debounced move call made so far. */
  datatype State = State(
    id: string,
    elements: seq<Element>,
    history: History,
    canvasId: string,
    isAuthorized: bool,
    entries: seq<Entry>,
    outbox: seq<Message>,
    requests: seq<Request>,
    storeCalls: seq<StoreCall>,
    pendingMoves: seq<PendingMove>)

  /** `payload || []`: a missing payload reads as the empty list. */
  function OrEmpty(payload: Option<seq<Element>>): seq<Element> {
    match payload
    case None => []
    case Some(es) => es
  }

  /** The handlers of run `k` exist and still have their `mounted` flag set. */
  predicate Live(s: State, k: nat) {
    k < |s.entries| && s.entries[k].mounted
  }

  // ---------------------------------------------------------------- events

  /** A render with property `id` that runs the board-entry effect; a missing
      (empty) `id` or `token` returns before anything happens. */
  function Enter(s: State, id: string, token: string): State {
    if id == "" || token == "" then s.(id := id)
    else
      s.(id := id,
         elements := [],
         history := Snapshots([]),
         canvasId := id,
         entries := s.entries + [Entry(id, true, false)],
         outbox := s.outbox + [JoinCanvas(id)],
         requests := s.requests + [LoadRequest(id, token)])
  }

  /** `loadCanvas_<id>` reaches the handler of run `k`. */
  function LoadCanvas(s: State, k: nat, payload: Option<seq<Element>>): State {
    if Live(s, k) && !s.entries[k].initialDataLoaded then
      var loaded := OrEmpty(payload);
      s.(entries := s.entries[k := s.entries[k].(initialDataLoaded := true)],
         elements := loaded,
         history := Snapshots([loaded]))
    else s
  }

  /** `receiveDrawingUpdate_<id>` reaches the handler of run `k`. */
  function ReceiveDrawingUpdate(s: State, k: nat, payload: seq<Element>): State {
    if Live(s, k) && s.entries[k].initialDataLoaded then s.(elements := payload) else s
  }

  /** `unauthorized_<id>` reaches the handler of run `k`. */
  function Unauthorized(s: State, k: nat): State {
    if Live(s, k) then s.(isAuthorized := false) else s
  }

  /** The storage fetch of run `k` resolves with `response.data.elements`. */
  function FetchResolved(s: State, k: nat, payload: Option<seq<Element>>): State {
    if Live(s, k) then
      var loaded := OrEmpty(payload);
      s.(elements := loaded, history := Flat(loaded))
    else s
  }

  /** The cleanup of run `k`. */
  function Cleanup(s: State, k: nat): State {
    if k < |s.entries| then s.(entries := s.entries[k := s.entries[k].(mounted := false)]) else s
  }

  /** `outbox` after a pointer handler of a render with property `boardId`
      and element list `es`: one `drawingUpdate` carrying them, when `es` is
      not empty. */
  function Emit(outbox: seq<Message>, boardId: string, es: seq<Element>): seq<Message> {
    if |es| > 0 then outbox + [DrawingUpdate(boardId, es)] else outbox
  }

  function MouseDown(s: State): State {
    if !s.isAuthorized then s else s.(storeCalls := s.storeCalls + [MouseDownCall])
  }

  /** A call of the debounced move handler schedules its timer over the
      current render's values. When it goes to the same render's debounced
      function as the previous call (`sameRender`), it first clears that
      call's timer. */
  function DispatchMove(s: State, sameRender: bool): State {
    var n := |s.pendingMoves|;
    var kept := if sameRender && n > 0 then s.pendingMoves[n - 1 := s.pendingMoves[n - 1].(done := true)] else s.pendingMoves;
    s.(pendingMoves := kept + [PendingMove(s.isAuthorized, s.id, s.elements, false)])
  }

  /** The timer of move call `j` fires: the debounced body runs over the
      values that call captured, not over the current ones. */
  function FireMove(s: State, j: nat): State {
    if j < |s.pendingMoves| && !s.pendingMoves[j].done then
      var m := s.pendingMoves[j];
      var t := s.(pendingMoves := s.pendingMoves[j := m.(done := true)]);
      if !m.authorized then t
      else t.(storeCalls := s.storeCalls + [MouseMoveCall], outbox := Emit(s.outbox, m.boardId, m.elements))
    else s
  }

  function MouseUp(s: State): State {
    if !s.isAuthorized then s
    else s.(storeCalls := s.storeCalls + [MouseUpCall], outbox := Emit(s.outbox, s.id, s.elements))
  }

  function KeyDown(s: State, ctrlKey: bool, key: string): State {
    if ctrlKey && key == "z" then s.(storeCalls := s.storeCalls + [UndoCall])
    else if ctrlKey && key == "y" then s.(storeCalls := s.storeCalls + [RedoCall])
    else s
  }

  /** The text box loses focus with `value` typed in it. */
  function TextBlur(s: State, value: string): State {
    s.(storeCalls := s.storeCalls + [BlurCall(value)])
  }

  /** What reaches a handler registered by one run of the entry effect: one
      of its three socket listeners, the outcome of its fetch, or its cleanup. */
  datatype RunEvent =
    | LoadCanvasMsg(initial: Option<seq<Element>>)
    | DrawingUpdateMsg(updated: seq<Element>)
    | UnauthorizedMsg
    | FetchOk(saved: Option<seq<Element>>)
    | FetchError
    | Left

  /** Input on the canvas, the text box and the document, and the firing of
      a debounced move's timer. */
  datatype Input =
    | PointerDown
    | PointerMove(sameRender: bool)
    | MoveTimerFired(move: nat)
    | PointerUp
    | Key(ctrlKey: bool, key: string)
    | Blur(value: string)

  datatype Event =
    | Entered(boardId: string, token: string)
    | ToRun(run: nat, event: RunEvent)
    | FromUser(input: Input)

  function HandleRunEvent(s: State, k: nat, e: RunEvent): State {
    match e
    case LoadCanvasMsg(p) => LoadCanvas(s, k, p)
    case DrawingUpdateMsg(p) => ReceiveDrawingUpdate(s, k, p)
    case UnauthorizedMsg => Unauthorized(s, k)
    case FetchOk(p) => FetchResolved(s, k, p)
    case FetchError => s
    case Left => Cleanup(s, k)
  }

  function HandleInput(s: State, i: Input): State {
    match i
    case PointerDown => MouseDown(s)
    case PointerMove(same) => DispatchMove(s, same)
    case MoveTimerFired(j) => FireMove(s, j)
    case PointerUp => MouseUp(s)
    case Key(ctrl, key) => KeyDown(s, ctrl, key)
    case Blur(value) => TextBlur(s, value)
  }

  function Step(s: State, e: Event): State {
    match e
    case Entered(id, token) => Enter(s, id, token)
    case ToRun(k, r) => HandleRunEvent(s, k, r)
    case FromUser(i) => HandleInput(s, i)
  }

  function Run(s: State, events: seq<Event>): State
    decreases |events|
  {
    if events == [] then s else Run(Step(s, events[0]), events[1..])
  }

  // ------------------------------------------------------------ invariant

  /** The boards joined on the socket, in order. */
  function JoinIds(outbox: seq<Message>): seq<string>
    decreases |outbox|
  {
    if outbox == [] then []
    else
      var m := outbox[|outbox| - 1];
      JoinIds(outbox[..|outbox| - 1]) + (if m.JoinCanvas? then [m.canvasId] else [])
  }

  /** Every run of the entry effect joined its board exactly once and asked
      storage for it exactly once, for a non-empty board id; the store's
      `canvasId` is the board of the latest run (the sidebar, which also sets
      it, is not part of this model). */
  ghost predicate Consistent(s: State) {
    && |JoinIds(s.outbox)| == |s.entries| == |s.requests|
    && (forall k :: 0 <= k < |s.entries| ==>
          && s.entries[k].boardId != ""
          && JoinIds(s.outbox)[k] == s.entries[k].boardId
          && s.requests[k].canvasId == s.entries[k].boardId)
    && (|s.entries| > 0 ==> s.canvasId == s.entries[|s.entries| - 1].boardId)
  }

  lemma JoinIdsAppend(outbox: seq<Message>, m: Message)
    ensures JoinIds(outbox + [m]) == JoinIds(outbox) + (if m.JoinCanvas? then [m.canvasId] else [])
  {
    assert (outbox + [m])[..|outbox|] == outbox;
  }

  /** An event that keeps the runs, the joins, the requests and `canvasId`
      keeps `Consistent`. */
  lemma SameRunsKeepConsistent(s: State, t: State)
    requires Consistent(s)
    requires t.entries == s.entries && t.requests == s.requests && t.canvasId == s.canvasId
    requires JoinIds(t.outbox) == JoinIds(s.outbox)
    ensures Consistent(t)
  {
  }

  /** So does an event that only changes the flags of run `k`. */
  lemma FlagsChangeKeepsConsistent(s: State, t: State, k: nat)
    requires Consistent(s) && k < |s.entries|
    requires |t.entries| == |s.entries| && t.entries == s.entries[k := t.entries[k]] && t.entries[k].boardId == s.entries[k].boardId
    requires t.requests == s.requests && t.canvasId == s.canvasId && t.outbox == s.outbox
    ensures Consistent(t)
  {
  }

  lemma EnterPreservesConsistent(s: State, id: string, token: string)
    requires Consistent(s)
    ensures Consistent(Enter(s, id, token))
  {
    if id != "" && token != "" {
      JoinIdsAppend(s.outbox, JoinCanvas(id));
    }
  }

  /** A drawing update is not a join. */
  lemma EmitKeepsJoins(outbox: seq<Message>, boardId: string, es: seq<Element>)
    ensures JoinIds(Emit(outbox, boardId, es)) == JoinIds(outbox)
  {
    if |es| > 0 {
      JoinIdsAppend(outbox, DrawingUpdate(boardId, es));
    }
  }

  lemma RunEventPreservesConsistent(s: State, k: nat, e: RunEvent)
    requires Consistent(s)
    ensures Consistent(HandleRunEvent(s, k, e))
  {
    match e
    case LoadCanvasMsg(p) =>
      if Live(s, k) { FlagsChangeKeepsConsistent(s, LoadCanvas(s, k, p), k); }
    case DrawingUpdateMsg(u) => SameRunsKeepConsistent(s, ReceiveDrawingUpdate(s, k, u));
    case UnauthorizedMsg => SameRunsKeepConsistent(s, Unauthorized(s, k));
    case FetchOk(p) => SameRunsKeepConsistent(s, FetchResolved(s, k, p));
    case FetchError =>
    case Left =>
      if k < |s.entries| { FlagsChangeKeepsConsistent(s, Cleanup(s, k), k); }
  }

  lemma InputPreservesConsistent(s: State, i: Input)
    requires Consistent(s)
    ensures Consistent(HandleInput(s, i))
  {
    match i
    case PointerDown => SameRunsKeepConsistent(s, MouseDown(s));
    case PointerMove(same) => SameRunsKeepConsistent(s, DispatchMove(s, same));
    case MoveTimerFired(j) =>
      if j < |s.pendingMoves| && !s.pendingMoves[j].done {
        var m := s.pendingMoves[j];
        EmitKeepsJoins(s.outbox, m.boardId, m.elements);
      }
      SameRunsKeepConsistent(s, FireMove(s, j));
    case PointerUp => EmitKeepsJoins(s.outbox, s.id, s.elements); SameRunsKeepConsistent(s, MouseUp(s));
    case Key(ctrl, key) => SameRunsKeepConsistent(s, KeyDown(s, ctrl, key));
    case Blur(value) => SameRunsKeepConsistent(s, TextBlur(s, value));
  }

  lemma {:induction false} StepPreservesConsistent(s: State, e: Event)
    requires Consistent(s)
    ensures Consistent(Step(s, e))
  {
    match e
    case Entered(id, token) => EnterPreservesConsistent(s, id, token);
    case ToRun(k, r) => RunEventPreservesConsistent(s, k, r);
    case FromUser(i) => InputPreservesConsistent(s, i);
  }

  /** `Consistent` holds after any sequence of events that starts in it. */
  lemma {:induction false} RunPreservesConsistent(s: State, events: seq<Event>)
    requires Consistent(s)
    ensures Consistent(Run(s, events))
    decreases |events|
  {
    if events != [] {
      StepPreservesConsistent(s, events[0]);
      RunPreservesConsistent(Step(s, events[0]), events[1..]);
    }
  }

  // --------------------------------------------------- event sequences

  /** Runs are only ever added; a run keeps its board and never becomes
      mounted again, and once loaded it stays loaded. The outbox, the storage
      requests and the store calls only grow. */
  lemma StepIsMonotone(s: State, e: Event, k: nat)
    requires k < |s.entries|
    ensures var t := Step(s, e);
      && k < |t.entries|
      && t.entries[k].boardId == s.entries[k].boardId
      && (!s.entries[k].mounted ==> !t.entries[k].mounted)
      && (s.entries[k].initialDataLoaded ==> t.entries[k].initialDataLoaded)
      && s.outbox <= t.outbox && s.requests <= t.requests && s.storeCalls <= t.storeCalls
  {
  }

  /** Runs are only ever added; a run keeps its board and never becomes
      mounted again, and once loaded it stays loaded. The outbox, the storage
      requests and the store calls only grow. */
  lemma {:induction false} RunIsMonotone(s: State, events: seq<Event>, k: nat)
    requires k < |s.entries|
    ensures var t := Run(s, events);
      && k < |t.entries|
      && t.entries[k].boardId == s.entries[k].boardId
      && (!s.entries[k].mounted ==> !t.entries[k].mounted)
      && (s.entries[k].initialDataLoaded ==> t.entries[k].initialDataLoaded)
      && s.outbox <= t.outbox && s.requests <= t.requests && s.storeCalls <= t.storeCalls
    decreases |events|
  {
    if events != [] {
      StepIsMonotone(s, events[0], k);
      RunIsMonotone(Step(s, events[0]), events[1..], k);
    }
  }

  /** `loadCanvas` takes effect at most once per run: after the first one,
      whatever happens in between, a later one leaves the state unchanged. */
  lemma LaterLoadsAreIgnored(s: State, events: seq<Event>, k: nat, payload: Option<seq<Element>>)
    requires k < |s.entries| && s.entries[k].initialDataLoaded
    ensures Step(Run(s, events), ToRun(k, LoadCanvasMsg(payload))) == Run(s, events)
  {
    RunIsMonotone(s, events, k);
  }

  /** After the cleanup of run `k`, whatever happens in between, no handler of
      that run (socket message, fetch outcome, cleanup) changes anything. */
  lemma LeftRunIgnoresItsHandlers(s: State, events: seq<Event>, k: nat, e: RunEvent)
    requires k < |s.entries| && !s.entries[k].mounted
    ensures Step(Run(s, events), ToRun(k, e)) == Run(s, events)
  {
    RunIsMonotone(s, events, k);
    var t := Run(s, events);
    if e.Left? {
      assert t.entries[k := t.entries[k].(mounted := false)] == t.entries;
    }
  }

  /** One event after revocation: rights stay revoked, existing move calls
      keep their captured flag, and every new move call captures the revoked
      flag. */
  lemma StepKeepsRevocation(s: State, e: Event)
    requires !s.isAuthorized
    ensures var t := Step(s, e);
      && !t.isAuthorized
      && s.outbox <= t.outbox && s.storeCalls <= t.storeCalls
      && |s.pendingMoves| <= |t.pendingMoves|
      && (forall j :: 0 <= j < |s.pendingMoves| ==> t.pendingMoves[j].authorized == s.pendingMoves[j].authorized)
      && (forall j :: |s.pendingMoves| <= j < |t.pendingMoves| ==> !t.pendingMoves[j].authorized)
  {
  }

  /** Once rights are revoked nothing grants them back, and every later call
      of the debounced move handler captures the revoked flag. Move calls made
      before the revocation keep the flag they captured, so their timers can
      still run the store handler and emit (`StaleMoveStillFires`). */
  lemma {:induction false} AuthorizationIsNeverRestored(s: State, events: seq<Event>)
    requires !s.isAuthorized
    ensures var t := Run(s, events);
      && !t.isAuthorized
      && s.outbox <= t.outbox && s.storeCalls <= t.storeCalls
      && |s.pendingMoves| <= |t.pendingMoves|
      && (forall j :: 0 <= j < |s.pendingMoves| ==> t.pendingMoves[j].authorized == s.pendingMoves[j].authorized)
      && (forall j :: |s.pendingMoves| <= j < |t.pendingMoves| ==> !t.pendingMoves[j].authorized)
    decreases |events|
  {
    if events != [] {
      StepKeepsRevocation(s, events[0]);
      AuthorizationIsNeverRestored(Step(s, events[0]), events[1..]);
    }
  }

  /** Every move call that captured granted rights has fired or been cleared. */
  ghost predicate Drained(s: State) {
    forall j :: 0 <= j < |s.pendingMoves| && s.pendingMoves[j].authorized ==> s.pendingMoves[j].done
  }

  /** The store calls that no authorization check guards. */
  predicate Ungated(c: StoreCall) {
    c.UndoCall? || c.RedoCall? || c.BlurCall?
  }

  lemma StepKeepsSilence(s: State, e: Event)
    requires !s.isAuthorized && Drained(s)
    ensures var t := Step(s, e);
      && Drained(t)
      && s.outbox <= t.outbox && s.storeCalls <= t.storeCalls
      && (forall i :: |s.outbox| <= i < |t.outbox| ==> t.outbox[i].JoinCanvas?)
      && (forall i :: |s.storeCalls| <= i < |t.storeCalls| ==> Ungated(t.storeCalls[i]))
  {
  }

  /** Once rights are revoked and the move timers scheduled before that have
      fired or been cleared, no `drawingUpdate` is sent and no pointer handler
      of the store is called: every later message is a `joinCanvas`, and every
      later store call is undo, redo or the text box's blur handler. */
  lemma {:induction false} RevocationSilencesPointer(s: State, events: seq<Event>)
    requires !s.isAuthorized && Drained(s)
    ensures var t := Run(s, events);
      && s.outbox <= t.outbox && s.storeCalls <= t.storeCalls
      && (forall i :: |s.outbox| <= i < |t.outbox| ==> t.outbox[i].JoinCanvas?)
      && (forall i :: |s.storeCalls| <= i < |t.storeCalls| ==> Ungated(t.storeCalls[i]))
    decreases |events|
  {
    if events != [] {
      StepKeepsRevocation(s, events[0]);
      StepKeepsSilence(s, events[0]);
      RevocationSilencesPointer(Step(s, events[0]), events[1..]);
    }
  }

  /** A move made while authorized still fires after `unauthorized` arrives:
      its timer runs the store's move handler and emits the captured list. */
  lemma StaleMoveStillFires(s: State, k: nat)
    requires Live(s, k) && s.isAuthorized && |s.elements| > 0
    ensures var t := Run(s, [FromUser(PointerMove(false)), ToRun(k, UnauthorizedMsg), FromUser(MoveTimerFired(|s.pendingMoves|))]);
      && !t.isAuthorized
      && t.outbox == s.outbox + [DrawingUpdate(s.id, s.elements)]
      && t.storeCalls == s.storeCalls + [MouseMoveCall]
  {
    var events := [FromUser(PointerMove(false)), ToRun(k, UnauthorizedMsg), FromUser(MoveTimerFired(|s.pendingMoves|))];
    var s1 := DispatchMove(s, false);
    var s2 := Unauthorized(s1, k);
    assert events[1..][1..] == [events[2]];
    assert Run(s, events) == Run(s2, [events[2]]) == FireMove(s2, |s.pendingMoves|);
  }

  /** The inputs whose effect depends on `isAuthorized` are exactly the three
      pointer handlers: key presses, the text box's blur and a move timer give
      the same result with or without rights. */
  lemma OnlyPointerInputsAreGated(s: State, i: Input)
    ensures
      (HandleInput(s.(isAuthorized := true), i).(isAuthorized := false) == HandleInput(s.(isAuthorized := false), i))
      <==> !(i.PointerDown? || i.PointerMove? || i.PointerUp?)
  {
    var granted, revoked := s.(isAuthorized := true), s.(isAuthorized := false);
    match i
    case PointerDown =>
      assert |HandleInput(granted, i).storeCalls| != |HandleInput(revoked, i).storeCalls|;
    case PointerMove(same) =>
      var n := |s.pendingMoves|;
      assert HandleInput(granted, i).pendingMoves[n].authorized;
      assert !HandleInput(revoked, i).pendingMoves[n].authorized;
    case PointerUp =>
      assert |HandleInput(granted, i).storeCalls| != |HandleInput(revoked, i).storeCalls|;
    case MoveTimerFired(j) =>
    case Key(ctrl, key) =>
    case Blur(value) =>
  }

  /** Every `drawingUpdate` in the outbox carries a non-empty element list. */
  ghost predicate UpdatesCarryElements(outbox: seq<Message>) {
    forall i :: 0 <= i < |outbox| && outbox[i].DrawingUpdate? ==> |outbox[i].elements| > 0
  }

  lemma EmitCarriesElements(outbox: seq<Message>, boardId: string, es: seq<Element>)
    requires UpdatesCarryElements(outbox)
    ensures UpdatesCarryElements(Emit(outbox, boardId, es))
  {
  }

  lemma StepKeepsUpdatesNonEmpty(s: State, e: Event)
    requires UpdatesCarryElements(s.outbox)
    ensures UpdatesCarryElements(Step(s, e).outbox)
  {
    match e
    case Entered(id, token) =>
    case ToRun(k, r) =>
    case FromUser(i) =>
      match i
      case MoveTimerFired(j) =>
        if j < |s.pendingMoves| && !s.pendingMoves[j].done {
          EmitCarriesElements(s.outbox, s.pendingMoves[j].boardId, s.pendingMoves[j].elements);
        }
      case PointerUp => EmitCarriesElements(s.outbox, s.id, s.elements);
      case _ =>
  }

  /** No event sequence sends a `drawingUpdate` with an empty element list. */
  lemma {:induction false} UpdatesAreNeverEmpty(s: State, events: seq<Event>)
    requires UpdatesCarryElements(s.outbox)
    ensures UpdatesCarryElements(Run(s, events).outbox)
    decreases |events|
  {
    if events != [] {
      StepKeepsUpdatesNonEmpty(s, events[0]);
      UpdatesAreNeverEmpty(Step(s, events[0]), events[1..]);
    }
  }

  /** The event delivers `loadCanvas` to run `k`. */
  predicate LoadsRun(e: Event, k: nat) {
    e.ToRun? && e.run == k && e.event.LoadCanvasMsg?
  }

  /** A run that has not received `loadCanvas` stays unloaded through any
      events that do not deliver one to it. */
  lemma {:induction false} UnloadedUntilLoad(s: State, events: seq<Event>, k: nat)
    requires k < |s.entries| && !s.entries[k].initialDataLoaded
    requires forall i :: 0 <= i < |events| ==> !LoadsRun(events[i], k)
    ensures k < |Run(s, events).entries| && !Run(s, events).entries[k].initialDataLoaded
    decreases |events|
  {
    if events != [] {
      assert !LoadsRun(events[0], k);
      var t := Step(s, events[0]);
      assert k < |t.entries| && !t.entries[k].initialDataLoaded;
      assert forall i :: 0 <= i < |events[1..]| ==> !LoadsRun(events[1..][i], k) by {
        forall i | 0 <= i < |events[1..]| ensures !LoadsRun(events[1..][i], k) {
          assert events[1..][i] == events[i + 1];
        }
      }
      UnloadedUntilLoad(t, events[1..], k);
    }
  }

  /** Until its `loadCanvas` arrives, every drawing update of a run is
      dropped, whatever else happens in between. */
  lemma UpdatesBeforeLoadAreDropped(s: State, events: seq<Event>, k: nat, updated: seq<Element>)
    requires k < |s.entries| && !s.entries[k].initialDataLoaded
    requires forall i :: 0 <= i < |events| ==> !LoadsRun(events[i], k)
    ensures Step(Run(s, events), ToRun(k, DrawingUpdateMsg(updated))) == Run(s, events)
  {
    UnloadedUntilLoad(s, events, k);
  }

  /** After entering a board, a fetched list survives a later drawing update
      when the socket load has not arrived: the update is dropped. */
  lemma FetchedListSurvivesEarlyUpdate(s: State, id: string, token: string, saved: seq<Element>, updated: seq<Element>)
    requires id != "" && token != ""
    ensures var k := |s.entries|;
      Run(Enter(s, id, token), [ToRun(k, FetchOk(Some(saved))), ToRun(k, DrawingUpdateMsg(updated))]).elements == saved
  {
    var k, t := |s.entries|, Enter(s, id, token);
    var events := [ToRun(k, FetchOk(Some(saved))), ToRun(k, DrawingUpdateMsg(updated))];
    assert events[1..] == [events[1]];
    var t1 := FetchResolved(t, k, Some(saved));
    assert Live(t1, k) && !t1.entries[k].initialDataLoaded;
    assert Run(t, events) == Run(t1, [events[1]]) == ReceiveDrawingUpdate(t1, k, updated);
  }

  /** The socket load and the storage fetch of one entry race, and the later
      of the two decides the element list: the fetch never checks the loaded
      flag, and it does not set it either. */
  lemma LaterLoadSourceWins(s: State, id: string, token: string, fromSocket: seq<Element>, fromStorage: seq<Element>)
    requires id != "" && token != ""
    ensures var k, t := |s.entries|, Enter(s, id, token);
      && Run(t, [ToRun(k, FetchOk(Some(fromStorage))), ToRun(k, LoadCanvasMsg(Some(fromSocket)))]).elements == fromSocket
      && Run(t, [ToRun(k, FetchOk(Some(fromStorage))), ToRun(k, LoadCanvasMsg(Some(fromSocket)))]).history == Snapshots([fromSocket])
      && Run(t, [ToRun(k, LoadCanvasMsg(Some(fromSocket))), ToRun(k, FetchOk(Some(fromStorage)))]).elements == fromStorage
      && Run(t, [ToRun(k, LoadCanvasMsg(Some(fromSocket))), ToRun(k, FetchOk(Some(fromStorage)))]).history == Flat(fromStorage)
  {
    var k, t := |s.entries|, Enter(s, id, token);
    var a := [ToRun(k, FetchOk(Some(fromStorage))), ToRun(k, LoadCanvasMsg(Some(fromSocket)))];
    var b := [ToRun(k, LoadCanvasMsg(Some(fromSocket))), ToRun(k, FetchOk(Some(fromStorage)))];
    assert a[1..] == [a[1]] && b[1..] == [b[1]];
    var a1 := FetchResolved(t, k, Some(fromStorage));
    assert Live(a1, k) && !a1.entries[k].initialDataLoaded;
    assert Run(t, a) == Run(a1, [a[1]]) == LoadCanvas(a1, k, Some(fromSocket));
    var b1 := LoadCanvas(t, k, Some(fromSocket));
    assert Live(b1, k);
    assert Run(t, b) == Run(b1, [b[1]]) == FetchResolved(b1, k, Some(fromStorage));
  }

  /** The two load paths leave history in different shapes for the same
      list: a one-snapshot list from the socket, the flat list from storage. */
  lemma LoadPathsDisagreeOnHistory(s: State, k: nat, loaded: seq<Element>)
    requires Live(s, k) && !s.entries[k].initialDataLoaded
    ensures LoadCanvas(s, k, Some(loaded)).elements == FetchResolved(s, k, Some(loaded)).elements
    ensures LoadCanvas(s, k, Some(loaded)).history != FetchResolved(s, k, Some(loaded)).history
  {
  }
}
