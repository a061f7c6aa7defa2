/**
 * The board component as an object: its fields are the values the handlers
 * read and write, and each method is one handler. Every method keeps
 * `Valid()` and leaves the object in the state that the matching transition
 * of module Session gives, so the lemmas proved there apply to any sequence
 * of calls.
 */
module Board {
  import opened Elements
  import Session

  class BoardSession {
    var id: string                        // the board's `id` property
    var elements: seq<Element>            // store: elements
    var history: Session.History          // store: history
    var canvasId: string                  // store: canvasId
    var isAuthorized: bool                // component state, true on mount
    var entries: seq<Session.Entry>       // closure flags, one per run of the entry effect
    var outbox: seq<Session.Message>      // socket.emit calls, in order
    var requests: seq<Session.Request>    // storage requests, in order
    var storeCalls: seq<Session.StoreCall> // calls into the store's handlers, in order
    var pendingMoves: seq<Session.PendingMove> // debounced move calls and their timers

    function Model(): Session.State
      reads this
    {
      Session.State(id, elements, history, canvasId, isAuthorized, entries, outbox, requests, storeCalls, pendingMoves)
    }

    /** The object's invariant: the joins and storage requests sent so far
        match its entry runs (`Session.Consistent`). */
    ghost predicate Valid()
      reads this
    {
      Session.Consistent(Model())
    }

    /** A freshly mounted board over the store's current values. */
    constructor (boardId: string, storeElements: seq<Element>, storeHistory: Session.History, storeCanvasId: string)
      ensures Valid()
      ensures Model() == Session.State(boardId, storeElements, storeHistory, storeCanvasId, true, [], [], [], [], [])
    {
      id, elements, history, canvasId := boardId, storeElements, storeHistory, storeCanvasId;
      isAuthorized := true;
      entries, outbox, requests, storeCalls, pendingMoves := [], [], [], [], [];
    }

    /** The board-entry effect, run with property `newId`. */
    method Enter(newId: string, token: string)
      requires Valid()
      modifies this
      ensures Valid()
      ensures Model() == Session.Enter(old(Model()), newId, token)
    {
      ghost var before := Model();
      id := newId;
      if newId == "" || token == "" {
        Session.EnterPreservesConsistent(before, newId, token);
        return;
      }
      elements := [];
      history := Session.Snapshots([]);
      canvasId := newId;
      entries := entries + [Session.Entry(newId, true, false)];
      outbox := outbox + [Session.JoinCanvas(newId)];
      requests := requests + [Session.LoadRequest(newId, token)];
      assert Model() == Session.Enter(before, newId, token);
      Session.EnterPreservesConsistent(before, newId, token);
    }

    /** handleLoadCanvas of run `k`. */
    method HandleLoadCanvas(k: nat, initialElements: Option<seq<Element>>)
      requires Valid() && k < |entries|
      modifies this
      ensures Valid()
      ensures Model() == Session.LoadCanvas(old(Model()), k, initialElements)
    {
      ghost var before := Model();
      if entries[k].mounted && !entries[k].initialDataLoaded {
        entries := entries[k := entries[k].(initialDataLoaded := true)];
        var loaded := Session.OrEmpty(initialElements);
        elements := loaded;
        history := Session.Snapshots([loaded]);
      }
      assert Model() == Session.LoadCanvas(before, k, initialElements);
      Session.RunEventPreservesConsistent(before, k, Session.LoadCanvasMsg(initialElements));
    }

    /** handleDrawingUpdate of run `k`. */
    method HandleDrawingUpdate(k: nat, updatedElements: seq<Element>)
      requires Valid() && k < |entries|
      modifies this
      ensures Valid()
      ensures Model() == Session.ReceiveDrawingUpdate(old(Model()), k, updatedElements)
    {
      ghost var before := Model();
      if entries[k].mounted && entries[k].initialDataLoaded {
        elements := updatedElements;
      }
      assert Model() == Session.ReceiveDrawingUpdate(before, k, updatedElements);
      Session.RunEventPreservesConsistent(before, k, Session.DrawingUpdateMsg(updatedElements));
    }

    /** handleUnauthorized of run `k` (the alert it shows is left out). */
    method HandleUnauthorized(k: nat)
      requires Valid() && k < |entries|
      modifies this
      ensures Valid()
      ensures Model() == Session.Unauthorized(old(Model()), k)
    {
      ghost var before := Model();
      if entries[k].mounted {
        isAuthorized := false;
      }
      assert Model() == Session.Unauthorized(before, k);
      Session.RunEventPreservesConsistent(before, k, Session.UnauthorizedMsg);
    }

    /** The storage fetch of run `k` resolves with `response.data.elements`. */
    method FetchSucceeded(k: nat, savedElements: Option<seq<Element>>)
      requires Valid() && k < |entries|
      modifies this
      ensures Valid()
      ensures Model() == Session.FetchResolved(old(Model()), k, savedElements)
    {
      ghost var before := Model();
      if entries[k].mounted {
        var canvasElements := Session.OrEmpty(savedElements);
        elements := canvasElements;
        history := Session.Flat(canvasElements);
      }
      assert Model() == Session.FetchResolved(before, k, savedElements);
      Session.RunEventPreservesConsistent(before, k, Session.FetchOk(savedElements));
    }

    /** The storage fetch of run `k` fails: the error is only logged. */
    method FetchFailed(k: nat)
      requires Valid() && k < |entries|
      ensures Valid()
      ensures Model() == Session.HandleRunEvent(old(Model()), k, Session.FetchError)
    {
    }

    /** The cleanup of run `k`: clears `mounted` and removes the run's listeners. */
    method Cleanup(k: nat)
      requires Valid() && k < |entries|
      modifies this
      ensures Valid()
      ensures Model() == Session.Cleanup(old(Model()), k)
    {
      ghost var before := Model();
      entries := entries[k := entries[k].(mounted := false)];
      assert Model() == Session.Cleanup(before, k);
      Session.RunEventPreservesConsistent(before, k, Session.Left);
    }

    method HandleMouseDown()
      requires Valid()
      modifies this
      ensures Valid()
      ensures Model() == Session.MouseDown(old(Model()))
    {
      if !isAuthorized {
        return;
      }
      ghost var before := Model();
      storeCalls := storeCalls + [Session.MouseDownCall];
      assert Model() == Session.MouseDown(before);
      Session.InputPreservesConsistent(before, Session.PointerDown);
    }

    /** A call of the debounced move handler: it clears the timer of the
        previous call when that call went to the same render's function, and
        schedules its own over this render's values. */
    method HandleMouseMove(sameRender: bool)
      requires Valid()
      modifies this
      ensures Valid()
      ensures Model() == Session.DispatchMove(old(Model()), sameRender)
    {
      ghost var before := Model();
      var n := |pendingMoves|;
      if sameRender && n > 0 {
        pendingMoves := pendingMoves[n - 1 := pendingMoves[n - 1].(done := true)];
      }
      pendingMoves := pendingMoves + [Session.PendingMove(isAuthorized, id, elements, false)];
      assert Model() == Session.DispatchMove(before, sameRender);
      Session.InputPreservesConsistent(before, Session.PointerMove(sameRender));
    }

    /** The timer of move call `j` fires and runs the debounced body over
        the values that call captured. */
    method FireMoveTimer(j: nat)
      requires Valid() && j < |pendingMoves|
      modifies this
      ensures Valid()
      ensures Model() == Session.FireMove(old(Model()), j)
    {
      if pendingMoves[j].done {
        return;
      }
      ghost var before := Model();
      var m := pendingMoves[j];
      pendingMoves := pendingMoves[j := m.(done := true)];
      if m.authorized {
        storeCalls := storeCalls + [Session.MouseMoveCall];
        if |m.elements| > 0 {
          outbox := outbox + [Session.DrawingUpdate(m.boardId, m.elements)];
        }
      }
      assert Model() == Session.FireMove(before, j);
      Session.InputPreservesConsistent(before, Session.MoveTimerFired(j));
    }

    method HandleMouseUp()
      requires Valid()
      modifies this
      ensures Valid()
      ensures Model() == Session.MouseUp(old(Model()))
    {
      if !isAuthorized {
        return;
      }
      ghost var before := Model();
      var captured := elements;
      storeCalls := storeCalls + [Session.MouseUpCall];
      if |captured| > 0 {
        outbox := outbox + [Session.DrawingUpdate(id, captured)];
      }
      assert Model() == Session.MouseUp(before);
      Session.InputPreservesConsistent(before, Session.PointerUp);
    }

    method HandleKeyDown(ctrlKey: bool, key: string)
      requires Valid()
      modifies this
      ensures Valid()
      ensures Model() == Session.KeyDown(old(Model()), ctrlKey, key)
    {
      ghost var before := Model();
      if ctrlKey && key == "z" {
        storeCalls := storeCalls + [Session.UndoCall];
      } else if ctrlKey && key == "y" {
        storeCalls := storeCalls + [Session.RedoCall];
      }
      assert Model() == Session.KeyDown(before, ctrlKey, key);
      Session.InputPreservesConsistent(before, Session.Key(ctrlKey, key));
    }

    /** The text box's `onBlur`, which passes its value to the store. */
    method HandleTextAreaBlur(value: string)
      requires Valid()
      modifies this
      ensures Valid()
      ensures Model() == Session.TextBlur(old(Model()), value)
    {
      ghost var before := Model();
      storeCalls := storeCalls + [Session.BlurCall(value)];
      assert Model() == Session.TextBlur(before, value);
      Session.InputPreservesConsistent(before, Session.Blur(value));
    }
  }
}
