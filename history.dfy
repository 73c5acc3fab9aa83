/**
 * The linear undo history of the cover editor: a capacity-bounded sequence
 * of scene snapshots and a cursor into it. Recording a snapshot discards the
 * redo branch beyond the cursor, appends the snapshot, and evicts the oldest
 * entry once the capacity is exceeded; undo and redo move the cursor.
 */
module History {
  import opened SceneGraph

  /** At most this many snapshots are kept. */
  const Capacity: nat := 50

  /** The history (`entries`) and its cursor (`step`, -1 while empty). */
  datatype Timeline = Timeline(entries: seq<Scene>, step: int) {

    ghost predicate Valid()
    {
      && |entries| <= Capacity
      && -1 <= step < |entries|
      && (step == -1 <==> entries == [])
    }

    predicate CanUndo()
    {
      step > 0
    }

    predicate CanRedo()
    {
      step < |entries| - 1
    }
  }

  /** The empty history a new or reset canvas starts from. */
  const Empty := Timeline([], -1)

  /**
   * Records a snapshot: keeps the entries up to and including the cursor,
   * appends `snap`, drops the oldest entry when that exceeds the capacity, and
   * puts the cursor on the new snapshot.
   */
  function Record(t: Timeline, snap: Scene): (r: Timeline)
    requires t.Valid()
    ensures r.Valid()
    ensures |r.entries| > 0 && r.step == |r.entries| - 1 && r.entries[r.step] == snap
    ensures !r.CanRedo() && (r.CanUndo() <==> |r.entries| > 1)
    ensures |r.entries| == if t.step + 2 <= Capacity then t.step + 2 else Capacity
    ensures forall i :: 0 <= i < r.step ==> r.entries[i] == t.entries[t.step + 1 - r.step + i]
  {
    var kept := t.entries[..t.step + 1] + [snap];
    var trimmed := if |kept| > Capacity then kept[1..] else kept;
    Timeline(trimmed, |trimmed| - 1)
  }

  /** Moves the cursor one entry back, unless it is already at the oldest entry. */
  function Undone(t: Timeline): (r: Timeline)
    requires t.Valid()
    ensures r.Valid() && r.entries == t.entries
    ensures t.CanUndo() ==> r.step == t.step - 1 && r.CanRedo()
    ensures !t.CanUndo() ==> r == t
  {
    if t.step <= 0 then t else Timeline(t.entries, t.step - 1)
  }

  /** Moves the cursor one entry forward, unless it is already at the newest entry. */
  function Redone(t: Timeline): (r: Timeline)
    requires t.Valid()
    ensures r.Valid() && r.entries == t.entries
    ensures t.CanRedo() ==> r.step == t.step + 1 && r.CanUndo()
    ensures !t.CanRedo() ==> r == t
  {
    if t.step >= |t.entries| - 1 then t else Timeline(t.entries, t.step + 1)
  }

  /** While the capacity is not reached, recording keeps every entry up to the cursor. */
  lemma RecordKeepsPast(t: Timeline, snap: Scene)
    requires t.Valid() && t.step + 1 < Capacity
    ensures Record(t, snap).entries == t.entries[..t.step + 1] + [snap]
  {
    var r := Record(t, snap);
    assert |r.entries| == t.step + 2;
    forall i | 0 <= i < |r.entries|
      ensures r.entries[i] == (t.entries[..t.step + 1] + [snap])[i]
    {
    }
  }

  /** At capacity, recording drops exactly the oldest entry. */
  lemma RecordEvictsOldest(t: Timeline, snap: Scene)
    requires t.Valid() && t.step + 1 == Capacity
    ensures Record(t, snap).entries == t.entries[1..] + [snap]
  {
    var r := Record(t, snap);
    forall i | 0 <= i < |r.entries|
      ensures r.entries[i] == (t.entries[1..] + [snap])[i]
    {
    }
  }

  /** Undo followed by redo returns to the same cursor and snapshot. */
  lemma UndoThenRedo(t: Timeline)
    requires t.Valid() && t.CanUndo()
    ensures Redone(Undone(t)) == t
  {
  }

  /** Redo followed by undo returns to the same cursor and snapshot. */
  lemma RedoThenUndo(t: Timeline)
    requires t.Valid() && t.CanRedo()
    ensures Undone(Redone(t)) == t
  {
  }

  /** A snapshot recorded after an undo discards the redo branch: redo does nothing. */
  lemma RecordDiscardsRedo(t: Timeline, snap: Scene)
    requires t.Valid()
    ensures Redone(Record(Undone(t), snap)) == Record(Undone(t), snap)
  {
  }

  /** The history after recording each snapshot of `snaps` in turn. */
  function RecordAll(t: Timeline, snaps: seq<Scene>): (r: Timeline)
    requires t.Valid()
    ensures r.Valid()
    decreases |snaps|
  {
    if snaps == [] then t else RecordAll(Record(t, snaps[0]), snaps[1..])
  }

  /** The history after `k` undos. */
  function UndoTimes(t: Timeline, k: nat): (r: Timeline)
    requires t.Valid()
    ensures r.Valid() && r.entries == t.entries
    decreases k
  {
    if k == 0 then t else UndoTimes(Undone(t), k - 1)
  }

  /** Below capacity, recording with the cursor on the newest entry appends. */
  lemma RecordAtNewest(es: seq<Scene>, s: Scene)
    requires es != [] && |es| < Capacity
    ensures Record(Timeline(es, |es| - 1), s) == Timeline(es + [s], |es|)
  {
    RecordKeepsPast(Timeline(es, |es| - 1), s);
    assert es[..|es|] == es;
  }

  /** Below capacity, recording at the newest entry only appends. */
  lemma {:induction false} RecordAllAppends(es: seq<Scene>, snaps: seq<Scene>)
    requires es != [] && |es| + |snaps| <= Capacity
    ensures RecordAll(Timeline(es, |es| - 1), snaps) == Timeline(es + snaps, |es| + |snaps| - 1)
    decreases |snaps|
  {
    if snaps == [] {
      assert es + snaps == es;
    } else {
      var s, rest := snaps[0], snaps[1..];
      calc {
        RecordAll(Timeline(es, |es| - 1), snaps);
      == { RecordAtNewest(es, s); }
        RecordAll(Timeline(es + [s], |es|), rest);
      == { RecordAllAppends(es + [s], rest); }
        Timeline(es + [s] + rest, |es| + |snaps| - 1);
      == { assert es + [s] + rest == es + snaps; }
        Timeline(es + snaps, |es| + |snaps| - 1);
      }
    }
  }

  /** Each undo from a cursor that can still undo moves it back by one. */
  lemma {:induction false} UndoTimesFrom(es: seq<Scene>, step: int, k: nat)
    requires 0 < |es| <= Capacity && 0 <= step < |es| && k <= step
    ensures UndoTimes(Timeline(es, step), k) == Timeline(es, step - k)
    decreases k
  {
    if k > 0 {
      UndoTimesFrom(es, step - 1, k - 1);
    }
  }

  /** The newest `Capacity` entries of `s`, or all of them when there are fewer. */
  function Newest(s: seq<Scene>): (r: seq<Scene>)
    ensures |r| == if |s| <= Capacity then |s| else Capacity
    ensures forall i :: 0 <= i < |r| ==> r[i] == s[|s| - |r| + i]
  {
    if |s| <= Capacity then s else s[|s| - Capacity..]
  }

  /** Recording with the cursor on the newest entry appends and keeps the newest `Capacity` entries. */
  lemma RecordAtNewestKeepsNewest(es: seq<Scene>, s: Scene)
    requires es != [] && |es| <= Capacity
    ensures Record(Timeline(es, |es| - 1), s) == Timeline(Newest(es + [s]), |Newest(es + [s])| - 1)
  {
    if |es| < Capacity {
      RecordAtNewest(es, s);
    } else {
      RecordEvictsOldest(Timeline(es, |es| - 1), s);
      assert es[1..] + [s] == (es + [s])[1..];
    }
  }

  /** Keeping the newest entries before appending more changes nothing about the newest entries after. */
  lemma NewestTwice(a: seq<Scene>, b: seq<Scene>)
    ensures Newest(Newest(a) + b) == Newest(a + b)
  {
    var x, y := Newest(Newest(a) + b), Newest(a + b);
    assert |x| == |y|;
    forall i | 0 <= i < |x|
      ensures x[i] == y[i]
    {
    }
  }

  /**
   * From a history whose cursor is on its newest entry, recording a run of
   * snapshots leaves the newest `Capacity` of all entries, with the cursor on
   * the last snapshot.
   */
  lemma {:induction false} RecordAllKeepsNewest(es: seq<Scene>, snaps: seq<Scene>)
    requires es != [] && |es| <= Capacity
    ensures RecordAll(Timeline(es, |es| - 1), snaps) == Timeline(Newest(es + snaps), |Newest(es + snaps)| - 1)
    decreases |snaps|
  {
    if snaps == [] {
      assert es + snaps == es;
    } else {
      var s, rest := snaps[0], snaps[1..];
      var kept := Newest(es + [s]);
      calc {
        RecordAll(Timeline(es, |es| - 1), snaps);
      == { RecordAtNewestKeepsNewest(es, s); }
        RecordAll(Timeline(kept, |kept| - 1), rest);
      == { RecordAllKeepsNewest(kept, rest); }
        Timeline(Newest(kept + rest), |Newest(kept + rest)| - 1);
      == { NewestTwice(es + [s], rest); assert es + [s] + rest == es + snaps; }
        Timeline(Newest(es + snaps), |Newest(es + snaps)| - 1);
      }
    }
  }

  /**
   * Starting from one snapshot, after N further commits and k undos (k at
   * most N, and below the capacity), the cursor is on the snapshot of the
   * (N-k)-th commit, also once the oldest entries have been evicted.
   */
  lemma CommitsThenUndos(first: Scene, snaps: seq<Scene>, k: nat)
    requires k <= |snaps| && k < Capacity
    ensures var t := UndoTimes(RecordAll(Timeline([first], 0), snaps), k);
            && t.step == (if 1 + |snaps| <= Capacity then |snaps| else Capacity - 1) - k
            && t.entries[t.step] == ([first] + snaps)[|snaps| - k]
  {
    var all := [first] + snaps;
    var kept := Newest(all);
    var step := |kept| - 1 - k;
    RecordAllKeepsNewest([first], snaps);
    UndoTimesFrom(kept, |kept| - 1, k);
    assert UndoTimes(RecordAll(Timeline([first], 0), snaps), k) == Timeline(kept, step);
    assert kept[step] == all[|all| - |kept| + step];
  }
}
