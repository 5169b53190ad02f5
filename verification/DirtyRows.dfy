/**
 Which transcript rows the next save writes (crates/agent-transcript/src/journal.rs): every row from
 `floor` on, because a block was added or taken there, and the rows below it changed in place.
 */
module DirtyRows {
  import opened Wrappers

  datatype Marks = Marks(floor: Option<nat>, points: set<nat>) {

    predicate Has(index: nat) {
      index in points || (floor.Some? && floor.value <= index)
    }

    /** A point at or past the floor would be named twice. */
    ghost predicate Valid() {
      floor.Some? ==> forall p :: p in points ==> p < floor.value
    }

    /** Every row from `index` on moved. */
    function MoveFrom(index: nat): (m: Marks)
      ensures m.Valid()
      ensures forall i: nat :: m.Has(i) <==> this.Has(i) || index <= i
    {
      var low := if floor.Some? && floor.value < index then floor.value else index;
      Marks(Some(low), set p | p in points && p < low)
    }

    /** The row at `index` changed in place. */
    function Change(index: nat): (m: Marks)
      requires Valid()
      ensures m.Valid() && m.floor == floor
      ensures forall i: nat :: m.Has(i) <==> Has(i) || i == index
    {
      if floor.None? || index < floor.value then Marks(floor, points + {index}) else this
    }

    /** The rows of another commit, or those a failed save did not write, beside these. */
    function Merge(other: Marks): (m: Marks)
      requires Valid() && other.Valid()
      ensures m.Valid()
      ensures forall i: nat :: m.Has(i) <==> Has(i) || other.Has(i)
      ensures m.floor == if floor.None? then other.floor
                         else if other.floor.None? || floor.value < other.floor.value then floor
                         else other.floor
    {
      var moved := if other.floor.Some? then MoveFrom(other.floor.value) else this;
      Marks(moved.floor,
            moved.points + set p | p in other.points && (moved.floor.None? || p < moved.floor.value))
    }

    /** The marked rows from `from` up to `len`, ascending. */
    function Indices(from: nat, len: nat): (indices: seq<nat>)
      requires from <= len
      ensures forall i: nat :: i in indices <==> from <= i < len && Has(i)
      ensures forall k :: 0 <= k < |indices| ==> from <= indices[k] < len
      ensures forall j, k :: 0 <= j < k < |indices| ==> indices[j] < indices[k]
      decreases len - from
    {
      if from == len then []
      else
        var rest := Indices(from + 1, len);
        if Has(from) then [from] + rest else rest
    }
  }

  const CLEAN := Marks(None, {})

  /** No marked row is before `position`. */
  ghost predicate AllFrom(m: Marks, position: nat) {
    forall i: nat :: m.Has(i) ==> position <= i
  }

  /** Whether the lowest marked row is before `position`. */
  predicate SomeBelow(m: Marks, position: nat)
  {
    (exists p :: p in m.points && p < position) || (m.floor.Some? && m.floor.value < position)
  }

  lemma {:induction false} SomeBelowExactlyWhenNotAllFrom(m: Marks, position: nat)
    ensures SomeBelow(m, position) <==> !AllFrom(m, position)
  {
    if m.floor.Some? { assert m.Has(m.floor.value); }
    forall p | p in m.points ensures m.Has(p) { }
  }

  lemma {:induction false} SameMarks(a: Marks, b: Marks)
    requires a.Valid() && b.Valid() && a.floor == b.floor
    requires forall i: nat :: a.Has(i) <==> b.Has(i)
    ensures a == b
  {
    forall i: nat ensures i in a.points <==> i in b.points {
      assert a.Has(i) <==> b.Has(i);
    }
    assert a.points == b.points;
  }

  /** A commit that merges a batch's rows marks what marking its changes one by one marks. */
  lemma {:induction false} ABatchMergesAsItsChanges(m: Marks, batch: Marks, index: nat)
    requires m.Valid() && batch.Valid()
    ensures m.Merge(batch.MoveFrom(index)) == m.Merge(batch).MoveFrom(index)
    ensures m.Merge(batch.Change(index)) == m.Merge(batch).Change(index)
    ensures m.Merge(CLEAN) == m
  {
    SameMarks(m.Merge(batch.MoveFrom(index)), m.Merge(batch).MoveFrom(index));
    SameMarks(m.Merge(batch.Change(index)), m.Merge(batch).Change(index));
    SameMarks(m.Merge(CLEAN), m);
  }
}
