/**
 The undo/redo history of the whiteboard (src/components/whiteboard.js,
 `saveToUndoStack`, `undo`, `redo`) as values: two stacks of opaque canvas
 snapshots, pushed and popped at the tail only.
 */
module SnapshotHistory {
  import opened Wrappers

  datatype History<S> = History(undo: seq<S>, redo: seq<S>)

  /** Number of snapshots held by both stacks together. */
  function Size<S>(h: History<S>): nat {
    |h.undo| + |h.redo|
  }

  /** `saveToUndoStack`: push a snapshot and forget everything that could be redone. */
  function Save<S>(h: History<S>, s: S): (r: History<S>)
    ensures |r.undo| == |h.undo| + 1 && r.undo[..|h.undo|] == h.undo && r.undo[|h.undo|] == s
    ensures r.redo == []
  {
    History(h.undo + [s], [])
  }

  /** `undo`: with at least two snapshots, move the top one to the redo stack;
      otherwise nothing happens. */
  function Undo<S>(h: History<S>): (r: History<S>)
    ensures Size(r) == Size(h)
    ensures |r.undo| == if |h.undo| <= 1 then |h.undo| else |h.undo| - 1
    ensures |h.undo| >= 1 ==> |r.undo| >= 1
  {
    if |h.undo| <= 1 then h
    else History(h.undo[..|h.undo| - 1], h.redo + [h.undo[|h.undo| - 1]])
  }

  /** The snapshot `undo` paints onto the canvas, if it acts at all. */
  function UndoShows<S>(h: History<S>): Option<S> {
    if |h.undo| <= 1 then None else Some(h.undo[|h.undo| - 2])
  }

  /** `redo`: move the top redo snapshot back onto the undo stack, if any. */
  function Redo<S>(h: History<S>): (r: History<S>)
    ensures Size(r) == Size(h)
    ensures |r.undo| == if h.redo == [] then |h.undo| else |h.undo| + 1
  {
    if h.redo == [] then h
    else History(h.undo + [h.redo[|h.redo| - 1]], h.redo[..|h.redo| - 1])
  }

  /** The snapshot `redo` paints onto the canvas, if it acts at all. */
  function RedoShows<S>(h: History<S>): Option<S> {
    if h.redo == [] then None else Some(h.redo[|h.redo| - 1])
  }

  /** Undo with at most one snapshot changes nothing and paints nothing. */
  lemma UndoGuard<S>(h: History<S>)
    requires |h.undo| <= 1
    ensures Undo(h) == h && UndoShows(h) == None
  {
  }

  /** Undo with two or more snapshots: the top leaves the undo stack, lands on
      top of the redo stack, and the canvas shows the new top of the undo stack. */
  lemma UndoTransfer<S>(h: History<S>)
    requires |h.undo| >= 2
    ensures var r := Undo(h);
      r.undo == h.undo[..|h.undo| - 1]
      && r.redo == h.redo + [h.undo[|h.undo| - 1]]
      && UndoShows(h) == Some(r.undo[|r.undo| - 1])
  {
  }

  /** Redo with an empty redo stack changes nothing and paints nothing. */
  lemma RedoGuard<S>(h: History<S>)
    requires h.redo == []
    ensures Redo(h) == h && RedoShows(h) == None
  {
  }

  /** Redo otherwise: the top redo snapshot moves onto the undo stack and is
      what the canvas shows. */
  lemma RedoTransfer<S>(h: History<S>)
    requires h.redo != []
    ensures var r := Redo(h);
      r.undo == h.undo + [h.redo[|h.redo| - 1]]
      && r.redo == h.redo[..|h.redo| - 1]
      && RedoShows(h) == Some(r.undo[|r.undo| - 1])
  {
  }

  /** Undo followed by redo restores both stacks exactly. */
  lemma UndoThenRedo<S>(h: History<S>)
    requires |h.undo| >= 2
    ensures Redo(Undo(h)) == h
  {
    assert h.undo[..|h.undo| - 1] + [h.undo[|h.undo| - 1]] == h.undo;
  }

  /** Redo followed by undo restores both stacks exactly, unless the undo stack
      was empty (then the redone snapshot is the only one, and undo keeps it). */
  lemma RedoThenUndo<S>(h: History<S>)
    requires h.redo != [] && |h.undo| >= 1
    ensures Undo(Redo(h)) == h
  {
    assert h.redo[..|h.redo| - 1] + [h.redo[|h.redo| - 1]] == h.redo;
  }

  /** Saving after an undo leaves nothing to redo. */
  lemma SaveAfterUndoClearsRedo<S>(h: History<S>, s: S)
    ensures Save(Undo(h), s).redo == [] && Redo(Save(Undo(h), s)) == Save(Undo(h), s)
  {
  }

  /** k consecutive undos. */
  function UndoTimes<S>(h: History<S>, k: nat): History<S> {
    if k == 0 then h else Undo(UndoTimes(h, k - 1))
  }

  /** k consecutive redos. */
  function RedoTimes<S>(h: History<S>, k: nat): History<S>
    decreases k
  {
    if k == 0 then h else RedoTimes(Redo(h), k - 1)
  }

  /** Once only the first snapshot is left, further undos change nothing. */
  lemma {:induction false} UndoIdempotentAtBase<S>(h: History<S>, k: nat)
    requires |h.undo| <= 1
    ensures UndoTimes(h, k) == h
  {
    if k > 0 {
      UndoIdempotentAtBase(h, k - 1);
    }
  }

  /** k undos, with k below the number of snapshots, pop exactly k snapshots and
      push them, newest first, onto the redo stack. */
  lemma {:induction false} UndoTimesShape<S>(h: History<S>, k: nat)
    requires k < |h.undo|
    ensures var r := UndoTimes(h, k);
      |r.undo| == |h.undo| - k && r.undo == h.undo[..|h.undo| - k]
      && |r.redo| == |h.redo| + k && r.redo[..|h.redo|] == h.redo
      && forall j :: |h.redo| <= j < |r.redo| ==> r.redo[j] == h.undo[|h.undo| - 1 - (j - |h.redo|)]
  {
    if k > 0 {
      UndoTimesShape(h, k - 1);
    }
  }

  /** k undos followed by k redos restore both stacks, for any k below the
      number of snapshots. */
  lemma {:induction false} UndoRedoRoundTrip<S>(h: History<S>, k: nat)
    requires k < |h.undo|
    ensures RedoTimes(UndoTimes(h, k), k) == h
  {
    if k > 0 {
      UndoTimesShape(h, k - 1);
      UndoThenRedo(UndoTimes(h, k - 1));
      UndoRedoRoundTrip(h, k - 1);
    }
  }

  /** An operation the user can apply to the history. */
  datatype Op<S> = SaveOp(snapshot: S) | UndoOp | RedoOp

  function Apply<S>(h: History<S>, op: Op<S>): History<S> {
    match op
    case SaveOp(s) => Save(h, s)
    case UndoOp => Undo(h)
    case RedoOp => Redo(h)
  }

  /** Any sequence of operations, applied in order. */
  function Run<S>(h: History<S>, ops: seq<Op<S>>): History<S>
    decreases |ops|
  {
    if ops == [] then h else Run(Apply(h, ops[0]), ops[1..])
  }

  /** Once the undo stack holds a snapshot, no sequence of saves, undos and
      redos empties it, and its bottom snapshot (the initial canvas) stays. */
  lemma {:induction false} BaseSnapshotKept<S>(h: History<S>, ops: seq<Op<S>>)
    requires |h.undo| >= 1
    ensures |Run(h, ops).undo| >= 1 && Run(h, ops).undo[0] == h.undo[0]
    decreases |ops|
  {
    if ops != [] {
      var h' := Apply(h, ops[0]);
      assert |h'.undo| >= 1 && h'.undo[0] == h.undo[0];
      BaseSnapshotKept(h', ops[1..]);
    }
  }

  /** Undo and redo never add or drop a snapshot: only saving does. */
  lemma {:induction false} UndoRedoKeepSize<S>(h: History<S>, ops: seq<Op<S>>)
    requires forall i :: 0 <= i < |ops| ==> !ops[i].SaveOp?
    ensures Size(Run(h, ops)) == Size(h)
    decreases |ops|
  {
    if ops != [] {
      UndoRedoKeepSize(Apply(h, ops[0]), ops[1..]);
    }
  }

  /** The scenario of a first stroke on a mounted board, whose undo stack holds
      the two background snapshots of the mount effects: saving the stroke gives
      three snapshots; one undo shows the background again and leaves the stroke
      to redo; a second undo shows the first background; a third does nothing. */
  lemma FirstStrokeScenario<S>(bg1: S, bg2: S, stroke: S)
    ensures var saved := Save(History([bg1, bg2], []), stroke);
      && |saved.undo| == 3
      && UndoShows(saved) == Some(bg2)
      && Undo(saved) == History([bg1, bg2], [stroke])
      && UndoShows(Undo(saved)) == Some(bg1)
      && UndoTimes(saved, 2) == History([bg1], [stroke, bg2])
      && UndoTimes(saved, 3) == UndoTimes(saved, 2)
  {
    var saved := Save(History([bg1, bg2], []), stroke);
    assert saved.undo[..2] == [bg1, bg2];
    assert UndoTimes(saved, 1) == History([bg1, bg2], [stroke]);
    assert [bg1, bg2][..1] == [bg1];
  }
}
