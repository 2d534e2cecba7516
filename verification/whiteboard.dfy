/**
 The sequential state of the `Whiteboard` component (src/components/whiteboard.js):
 the undo and redo stacks of canvas snapshots, the registry of placed shapes with
 its id counter, the colour mode, and the canvas context they draw on. Snapshots
 are opaque (type parameter S); the snapshot a step records is what
 `canvas.toDataURL()` returns at that moment and is passed in by the caller.
 */
module Whiteboard {
  import opened Wrappers
  import opened Canvas
  import Shapes
  import ShapeIds
  import DrawingService
  import H = SnapshotHistory

  /** A placed shape: its id and the descriptor it was drawn from. */
  datatype ShapeRecord = ShapeRecord(id: string, params: Shapes.ShapeParams)

  /** The stroke colour a remote `drawing-start` sets: the local background
      colour for the eraser, the sender's colour otherwise. */
  function RemoteStrokeStyle(tool: string, darkMode: bool, color: string): string {
    if tool == "eraser" then Background(darkMode) else color
  }

  /** A remote eraser stroke paints exactly what a local eraser `setStyle` and a
      local clear paint with: this client's background colour, whatever colour the
      sender chose. */
  lemma RemoteEraserMatchesLocal(darkMode: bool, color: string, s: Style, o: DrawingService.StyleOptions)
    requires o.tool == Some("eraser") && o.darkMode == darkMode
    ensures RemoteStrokeStyle("eraser", darkMode, color) == DrawingService.ResolveStyle(s, o).strokeStyle
    ensures RemoteStrokeStyle("eraser", darkMode, color) == Background(darkMode)
  {
  }

  /** Any other remote tool keeps the sender's colour, in either colour mode. */
  lemma RemoteToolKeepsColour(tool: string, darkMode: bool, color: string)
    requires tool != "eraser"
    ensures RemoteStrokeStyle(tool, darkMode, color) == color
    ensures RemoteStrokeStyle(tool, !darkMode, color) == color
  {
  }

  /** The serial numbers at the ends of the registered ids, in list order. */
  function Serials(shapes: seq<ShapeRecord>): (s: seq<nat>)
    ensures |s| == |shapes|
  {
    seq(|shapes|, i requires 0 <= i < |shapes| => ShapeIds.IdSerial(shapes[i].id))
  }

  /** Registering one more shape adds its serial at the end. */
  lemma SerialsAppend(shapes: seq<ShapeRecord>, r: ShapeRecord)
    ensures Serials(shapes + [r]) == Serials(shapes) + [ShapeIds.IdSerial(r.id)]
  {
    var a, b := Serials(shapes + [r]), Serials(shapes) + [ShapeIds.IdSerial(r.id)];
    forall i | 0 <= i < |a|
      ensures a[i] == b[i]
    {
      if i < |shapes| {
        assert (shapes + [r])[i] == shapes[i];
      }
    }
  }

  /** Strictly increasing numbers, all below `bound`. */
  predicate IncreasingBelow(s: seq<nat>, bound: nat) {
    && (forall i :: 0 <= i < |s| ==> s[i] < bound)
    && (forall i, j :: 0 <= i < j < |s| ==> s[i] < s[j])
  }

  /** Appending the bound keeps the numbers increasing, below the next bound. */
  lemma IncreasingBelowAppend(s: seq<nat>, bound: nat)
    requires IncreasingBelow(s, bound)
    ensures IncreasingBelow(s + [bound], bound + 1)
  {
    var t := s + [bound];
    forall i, j | 0 <= i < j < |t|
      ensures t[i] < t[j]
    {
      assert t[i] == s[i];
    }
  }

  /** Registry invariant: the counter is at least 1, every placed shape's id ends
      in a serial below the counter, and serials increase along the list. */
  predicate RegistryValid(shapes: seq<ShapeRecord>, nextShapeId: nat) {
    nextShapeId >= 1 && IncreasingBelow(Serials(shapes), nextShapeId)
  }

  /** In a valid registry no two shapes share an id. */
  lemma RegistryIdsDistinct(shapes: seq<ShapeRecord>, nextShapeId: nat)
    requires RegistryValid(shapes, nextShapeId)
    ensures forall i, j :: 0 <= i < j < |shapes| ==> shapes[i].id != shapes[j].id
  {
    var s := Serials(shapes);
    forall i, j | 0 <= i < j < |shapes|
      ensures shapes[i].id != shapes[j].id
    {
      assert s[i] < s[j];
    }
  }

  /** Committing a shape with the current counter keeps the registry valid. */
  lemma RegistryAppend(shapes: seq<ShapeRecord>, nextShapeId: nat, p: Shapes.ShapeParams)
    requires RegistryValid(shapes, nextShapeId)
    ensures RegistryValid(shapes + [ShapeRecord(ShapeIds.ShapeId(p.shape, nextShapeId), p)], nextShapeId + 1)
  {
    var r := ShapeRecord(ShapeIds.ShapeId(p.shape, nextShapeId), p);
    ShapeIds.IdSerialOfShapeId(p.shape, nextShapeId);
    SerialsAppend(shapes, r);
    IncreasingBelowAppend(Serials(shapes), nextShapeId);
  }

  class Board<S> {
    /** The canvas's 2D context and its size. */
    const ctx: Context2D
    const width: nat
    const height: nat

    var darkMode: bool
    var undoStack: seq<S>
    var redoStack: seq<S>
    var shapes: seq<ShapeRecord>
    var nextShapeId: nat

    ghost predicate Valid()
      reads this
    {
      RegistryValid(shapes, nextShapeId)
    }

    /** The two stacks as a history value. */
    function History(): H.History<S>
      reads this
    {
      H.History(undoStack, redoStack)
    }

    /** Initial component state: light mode, empty stacks, no shapes, counter 1. */
    constructor (ctx: Context2D, width: nat, height: nat)
      ensures Valid()
      ensures this.ctx == ctx && this.width == width && this.height == height
      ensures !darkMode && undoStack == [] && redoStack == [] && shapes == [] && nextShapeId == 1
    {
      this.ctx := ctx;
      this.width := width;
      this.height := height;
      darkMode := false;
      undoStack := [];
      redoStack := [];
      shapes := [];
      nextShapeId := 1;
    }

    /** `saveToUndoStack()`: the snapshot goes on top of the undo stack, earlier
        entries stay, and the redo stack is emptied. */
    method SaveToUndoStack(snapshot: S)
      requires Valid()
      modifies this
      ensures Valid()
      ensures History() == H.Save(old(History()), snapshot)
      ensures shapes == old(shapes) && nextShapeId == old(nextShapeId) && darkMode == old(darkMode)
    {
      undoStack := undoStack + [snapshot];
      redoStack := [];
    }

    /** The mount effects: round caps and joins, the whole canvas painted in the
        background colour, and one snapshot saved. Both effects run on mount and
        again after every change of colour mode. */
    method PaintBackground(snapshot: S)
      requires Valid()
      modifies this, ctx
      ensures Valid()
      ensures History() == H.Save(old(History()), snapshot)
      ensures ctx.log == old(ctx.log) + [FillRect(0.0, 0.0, width as real, height as real)]
      ensures ctx.CurrentStyle()
           == old(ctx.CurrentStyle()).(lineCap := "round", lineJoin := "round", fillStyle := Background(darkMode))
      ensures shapes == old(shapes) && nextShapeId == old(nextShapeId) && darkMode == old(darkMode)
    {
      ctx.lineCap := "round";
      ctx.lineJoin := "round";
      ctx.fillStyle := Background(darkMode);
      ctx.Emit(FillRect(0.0, 0.0, width as real, height as real));
      SaveToUndoStack(snapshot);
    }

    /** `toggleDarkMode()`. */
    method ToggleDarkMode()
      requires Valid()
      modifies this
      ensures Valid()
      ensures darkMode == !old(darkMode)
      ensures History() == old(History()) && shapes == old(shapes) && nextShapeId == old(nextShapeId)
    {
      darkMode := !darkMode;
    }

    /** A change of colour mode and the two effects it re-runs: two snapshots
        are pushed, in the new background colour, and nothing is left to redo. */
    method ChangeColourMode(first: S, second: S)
      requires Valid()
      modifies this, ctx
      ensures Valid()
      ensures darkMode == !old(darkMode)
      ensures undoStack == old(undoStack) + [first, second] && redoStack == []
      ensures ctx.log == old(ctx.log) + [FillRect(0.0, 0.0, width as real, height as real),
                                         FillRect(0.0, 0.0, width as real, height as real)]
      ensures ctx.CurrentStyle()
           == old(ctx.CurrentStyle()).(lineCap := "round", lineJoin := "round", fillStyle := Background(darkMode))
      ensures shapes == old(shapes) && nextShapeId == old(nextShapeId)
    {
      ToggleDarkMode();
      PaintBackground(first);
      PaintBackground(second);
    }

    /** `undo()`, with the image decode taken to complete at once: with at least
        two snapshots the canvas is cleared and the one below the top is drawn
        (returned as `restored`), and the top moves to the redo stack. */
    method Undo() returns (restored: Option<S>)
      requires Valid()
      modifies this, ctx
      ensures Valid()
      ensures History() == H.Undo(old(History()))
      ensures restored == H.UndoShows(old(History()))
      ensures ctx.log == old(ctx.log)
                       + (if restored.Some? then [Command.ClearRect(0.0, 0.0, width as real, height as real)] else [])
      ensures ctx.CurrentStyle() == old(ctx.CurrentStyle())
      ensures shapes == old(shapes) && nextShapeId == old(nextShapeId) && darkMode == old(darkMode)
    {
      restored := None;
      if |undoStack| > 1 {
        var lastState := undoStack[|undoStack| - 2];
        var currentState := undoStack[|undoStack| - 1];
        // completion of the image decode
        ctx.Emit(Command.ClearRect(0.0, 0.0, width as real, height as real));
        restored := Some(lastState);
        undoStack := undoStack[..|undoStack| - 1];
        redoStack := redoStack + [currentState];
      }
    }

    /** `redo()`, with the image decode taken to complete at once: with a
        non-empty redo stack the canvas is cleared, its top is drawn (returned as
        `restored`) and moved onto the undo stack. */
    method Redo() returns (restored: Option<S>)
      requires Valid()
      modifies this, ctx
      ensures Valid()
      ensures History() == H.Redo(old(History()))
      ensures restored == H.RedoShows(old(History()))
      ensures ctx.log == old(ctx.log)
                       + (if restored.Some? then [Command.ClearRect(0.0, 0.0, width as real, height as real)] else [])
      ensures ctx.CurrentStyle() == old(ctx.CurrentStyle())
      ensures shapes == old(shapes) && nextShapeId == old(nextShapeId) && darkMode == old(darkMode)
    {
      restored := None;
      if |redoStack| > 0 {
        var nextState := redoStack[|redoStack| - 1];
        // completion of the image decode
        ctx.Emit(Command.ClearRect(0.0, 0.0, width as real, height as real));
        restored := Some(nextState);
        undoStack := undoStack + [nextState];
        redoStack := redoStack[..|redoStack| - 1];
      }
    }

    /** `drawShape(params)`: the shape is drawn (as `drawShapeOnCanvas` draws
        it); a committed shape is also registered under `${shape}_${nextShapeId}`,
        the counter advances by one and one snapshot is saved. A preview, or a
        circle whose `arc` throws (`completed` false), leaves shapes, counter and
        stacks alone. */
    method DrawShape(p: Shapes.ShapeParams, snapshot: S) returns (completed: bool)
      requires Valid()
      modifies this, ctx
      ensures Valid()
      ensures completed == !Shapes.Aborts(p)
      ensures ctx.log == old(ctx.log) + Shapes.ShapeCommands(p)
      ensures ctx.CurrentStyle() == Shapes.ShapeStyle(old(ctx.CurrentStyle()), p)
      ensures completed && !p.preview ==>
                && shapes == old(shapes) + [ShapeRecord(ShapeIds.ShapeId(p.shape, old(nextShapeId)), p)]
                && nextShapeId == old(nextShapeId) + 1
                && History() == H.Save(old(History()), snapshot)
      ensures !completed || p.preview ==>
                shapes == old(shapes) && nextShapeId == old(nextShapeId) && History() == old(History())
      ensures darkMode == old(darkMode)
    {
      var shapeId := ShapeIds.ShapeId(p.shape, nextShapeId);
      completed := Shapes.DrawShapeOnCanvas(ctx, p);
      if completed && !p.preview {
        RegistryAppend(shapes, nextShapeId, p);
        shapes := shapes + [ShapeRecord(shapeId, p)];
        nextShapeId := nextShapeId + 1;
        SaveToUndoStack(snapshot);
      }
    }

    /** `clearCanvas()`: the canvas is painted in the background colour, the
        shape list is emptied (the counter is not reset) and one snapshot is saved. */
    method ClearCanvas(snapshot: S)
      requires Valid()
      modifies this, ctx
      ensures Valid()
      ensures ctx.log == old(ctx.log) + [FillRect(0.0, 0.0, width as real, height as real)]
      ensures ctx.CurrentStyle() == old(ctx.CurrentStyle()).(fillStyle := Background(darkMode))
      ensures shapes == [] && nextShapeId == old(nextShapeId)
      ensures History() == H.Save(old(History()), snapshot)
      ensures darkMode == old(darkMode)
    {
      ctx.fillStyle := Background(darkMode);
      ctx.Emit(FillRect(0.0, 0.0, width as real, height as real));
      shapes := [];
      SaveToUndoStack(snapshot);
    }
  }

  /** A mounted board: fresh state, then the two mount effects. Its undo stack
      holds the two background snapshots and nothing can be undone past them. */
  method Mount<S>(ctx: Context2D, width: nat, height: nat, first: S, second: S) returns (b: Board<S>)
    modifies ctx
    ensures b.Valid() && b.ctx == ctx && fresh(b)
    ensures !b.darkMode && b.width == width && b.height == height
    ensures b.undoStack == [first, second] && b.redoStack == [] && b.shapes == [] && b.nextShapeId == 1
    ensures ctx.log == old(ctx.log) + [FillRect(0.0, 0.0, width as real, height as real),
                                       FillRect(0.0, 0.0, width as real, height as real)]
    ensures ctx.CurrentStyle()
         == old(ctx.CurrentStyle()).(lineCap := "round", lineJoin := "round", fillStyle := Background(false))
  {
    b := new Board(ctx, width, height);
    b.PaintBackground(first);
    b.PaintBackground(second);
  }

  /** Two consecutive committed shapes on a board mounted on a fresh context get
      the ids with serials 1 and 2 and one snapshot each; undo then shows the
      state after the first, and redo the state after the second. */
  method TwoShapesThenUndo<S>(blank: S, p1: Shapes.ShapeParams, s1: S, p2: Shapes.ShapeParams, s2: S)
    returns (ids: seq<string>, undone: Option<S>, redone: Option<S>)
    requires !p1.preview && !p2.preview && !Shapes.Aborts(p1) && !Shapes.Aborts(p2)
    ensures ids == [ShapeIds.ShapeId(p1.shape, 1), ShapeIds.ShapeId(p2.shape, 2)]
    ensures undone == Some(s1) && redone == Some(s2)
  {
    var ctx := new Context2D();
    var b := Mount(ctx, 100, 100, blank, blank);
    var ok1 := b.DrawShape(p1, s1);
    var ok2 := b.DrawShape(p2, s2);
    ids := [b.shapes[0].id, b.shapes[1].id];
    assert b.undoStack == [blank, blank, s1, s2];
    undone := b.Undo();
    assert b.redoStack == [s2];
    redone := b.Redo();
    assert b.undoStack == [blank, blank, s1, s2] && b.redoStack == [];
  }
}
