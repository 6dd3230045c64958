/** The undo history: a linear list of scene snapshots with a cursor
    (`history` and `historyStep`). A push drops everything past the cursor. */
module History {
  import opened Scene

  datatype Timeline = Timeline(entries: seq<Snapshot>, step: int)

  /** The cursor points at an entry. */
  predicate Valid(h: Timeline) {
    0 <= h.step < |h.entries|
  }

  /** One empty snapshot, cursor on it. */
  const Initial: Timeline := Timeline([Snapshot([], [])], 0)

  function Current(h: Timeline): Snapshot
    requires Valid(h)
  {
    h.entries[h.step]
  }

  predicate CanUndo(h: Timeline) {
    h.step > 0
  }

  predicate CanRedo(h: Timeline) {
    h.step < |h.entries| - 1
  }

  /** `addToHistory`: keep entries 0..step, append `s`, move the cursor onto it. */
  function Push(h: Timeline, s: Snapshot): (r: Timeline)
    requires Valid(h)
    ensures Valid(r) && Current(r) == s && !CanRedo(r)
    ensures |r.entries| == h.step + 2
    ensures r.entries[..h.step + 1] == h.entries[..h.step + 1]
  {
    var kept := h.entries[..h.step + 1] + [s];
    Timeline(kept, |kept| - 1)
  }

  /** `undo`: one entry back, or nothing at the first entry. */
  function Undo(h: Timeline): (r: Timeline)
    requires Valid(h)
    ensures Valid(r) && r.entries == h.entries
    ensures CanUndo(h) ==> r.step == h.step - 1
    ensures !CanUndo(h) ==> r == h
  {
    if h.step > 0 then h.(step := h.step - 1) else h
  }

  /** `redo`: one entry forward, or nothing at the last entry. */
  function Redo(h: Timeline): (r: Timeline)
    requires Valid(h)
    ensures Valid(r) && r.entries == h.entries
    ensures CanRedo(h) ==> r.step == h.step + 1
    ensures !CanRedo(h) ==> r == h
  {
    if h.step < |h.entries| - 1 then h.(step := h.step + 1) else h
  }

  /** A push leaves nothing to redo. */
  lemma RedoAfterPushIsNoOp(h: Timeline, s: Snapshot)
    requires Valid(h)
    ensures Redo(Push(h, s)) == Push(h, s)
  {
  }

  /** Undo right after a push shows what was current before the push. */
  lemma UndoAfterPush(h: Timeline, s: Snapshot)
    requires Valid(h)
    ensures Current(Undo(Push(h, s))) == Current(h)
  {
    var r := Push(h, s);
    assert r.entries[h.step] == h.entries[..h.step + 1][h.step];
  }

  /** Undo then redo restores the same cursor and snapshot. */
  lemma RedoUndoes(h: Timeline)
    requires Valid(h) && CanUndo(h)
    ensures Redo(Undo(h)) == h
  {
  }

  /** Redo then undo restores the same cursor and snapshot. */
  lemma UndoRedoes(h: Timeline)
    requires Valid(h) && CanRedo(h)
    ensures Undo(Redo(h)) == h
  {
  }

  /** Snapshots kept by the timeline satisfy a scene invariant when every
      snapshot pushed does. */
  predicate AllOk(h: Timeline) {
    forall s :: s in h.entries ==> SnapshotOk(s)
  }

  lemma PushKeepsOk(h: Timeline, s: Snapshot)
    requires Valid(h) && AllOk(h) && SnapshotOk(s)
    ensures AllOk(Push(h, s))
  {
    var r := Push(h, s);
    forall e | e in r.entries
      ensures SnapshotOk(e)
    {
      var i :| 0 <= i < |r.entries| && r.entries[i] == e;
      if i < h.step + 1 {
        assert e == h.entries[i];
      }
    }
  }
}
