/**
 Which version of its place a row is (crates/agent-store/src/versions.rs).

 The rows that follow one row are its siblings. A sibling that replaces another sibling is of that
 one's version; any other begins a version of its own.
 */
module Versions {
  import opened Wrappers

  const U32_MAX: nat := 0xFFFF_FFFF

  datatype Sibling = Sibling(row: nat, inPlaceOf: Option<nat>)

  /** Where a row stands among the versions of its place, from 1. */
  datatype Standing = Standing(index: nat, count: nat)

  /** What the store's rows give: every number names one sibling, and a row is written in place of an
      older one. */
  ghost predicate Numbered(siblings: seq<Sibling>) {
    && (forall i, j :: 0 <= i < j < |siblings| ==> siblings[i].row != siblings[j].row)
    && (forall i :: 0 <= i < |siblings| && siblings[i].inPlaceOf.Some? ==>
                      siblings[i].inPlaceOf.value < siblings[i].row)
  }

  ghost predicate Member(siblings: seq<Sibling>, row: nat) {
    exists i :: 0 <= i < |siblings| && siblings[i].row == row
  }

  /** The index of the sibling numbered `row`, or the number of siblings when none is. */
  function Find(siblings: seq<Sibling>, row: nat): (at: nat)
    ensures at <= |siblings|
    ensures at < |siblings| ==> siblings[at].row == row
    ensures at == |siblings| <==> !Member(siblings, row)
  {
    if siblings == [] then 0
    else if siblings[0].row == row then 0
    else
      var rest := Find(siblings[1..], row);
      assert forall i :: 0 <= i < |siblings[1..]| ==> siblings[1..][i] == siblings[i + 1];
      assert Member(siblings, row) ==> Member(siblings[1..], row) by {
        if Member(siblings, row) {
          var i :| 0 <= i < |siblings| && siblings[i].row == row;
          assert siblings[1..][i - 1].row == row;
        }
      }
      1 + rest
  }

  /** The sibling that `row` was written in place of, when that one is a sibling too. */
  function Replaced(siblings: seq<Sibling>, row: nat): Option<nat> {
    var at := Find(siblings, row);
    if at < |siblings| && siblings[at].inPlaceOf.Some? && Find(siblings, siblings[at].inPlaceOf.value) < |siblings|
    then siblings[at].inPlaceOf
    else None
  }

  /** The row that began the version of `row`. */
  function Start(siblings: seq<Sibling>, row: nat): (start: nat)
    requires Numbered(siblings)
    decreases row
  {
    match Replaced(siblings, row)
    case None => row
    case Some(replaced) => Start(siblings, replaced)
  }

  /** The walk as the store runs it. */
  method VersionStart(siblings: seq<Sibling>, row: nat) returns (start: nat)
    requires Numbered(siblings)
    ensures start == Start(siblings, row)
    ensures Replaced(siblings, start) == None && start <= row
    ensures Member(siblings, row) ==> Member(siblings, start)
  {
    start := row;
    while Replaced(siblings, start).Some?
      invariant Start(siblings, start) == Start(siblings, row)
      invariant start <= row
      invariant Member(siblings, row) ==> Member(siblings, start)
      decreases start
    {
      start := Replaced(siblings, start).value;
    }
  }

  lemma {:induction false} StartIsAFirstRow(siblings: seq<Sibling>, row: nat)
    requires Numbered(siblings)
    ensures Start(siblings, row) <= row
    ensures Replaced(siblings, Start(siblings, row)) == None
    ensures Start(siblings, Start(siblings, row)) == Start(siblings, row)
    ensures Member(siblings, row) ==> Member(siblings, Start(siblings, row))
    decreases row
  {
    if Replaced(siblings, row).Some? {
      StartIsAFirstRow(siblings, Replaced(siblings, row).value);
    }
  }

  // The first rows of the versions.

  ghost predicate IsStart(siblings: seq<Sibling>, row: nat)
    requires Numbered(siblings)
  {
    Member(siblings, row) && Start(siblings, row) == row
  }

  /** The rows of `some`, some of the siblings, whose version begins at `start`, in their order. */
  function RowsFrom(siblings: seq<Sibling>, some: seq<Sibling>, start: nat): (rows: seq<nat>)
    requires Numbered(siblings)
    ensures forall row :: row in rows <==> Member(some, row) && Start(siblings, row) == start
  {
    if some == [] then []
    else
      var rest := RowsFrom(siblings, some[1..], start);
      MemberOfTail(some);
      if Start(siblings, some[0].row) == start then [some[0].row] + rest else rest
  }

  /** The rows of `some` that begin a version, in their order. */
  function Firsts(siblings: seq<Sibling>, some: seq<Sibling>): (rows: seq<nat>)
    requires Numbered(siblings)
    ensures forall row :: row in rows <==> Member(some, row) && Start(siblings, row) == row
  {
    if some == [] then []
    else
      var rest := Firsts(siblings, some[1..]);
      MemberOfTail(some);
      if Start(siblings, some[0].row) == some[0].row then [some[0].row] + rest else rest
  }

  lemma {:induction false} MemberOfTail(some: seq<Sibling>)
    requires some != []
    ensures forall row :: Member(some, row) <==> row == some[0].row || Member(some[1..], row)
  {
    forall row
      ensures Member(some, row) <==> row == some[0].row || Member(some[1..], row)
    {
      if Member(some, row) && row != some[0].row {
        var i :| 0 <= i < |some| && some[i].row == row;
        assert some[1..][i - 1].row == row;
      }
      if Member(some[1..], row) {
        var i :| 0 <= i < |some[1..]| && some[1..][i].row == row;
        assert some[i + 1].row == row;
      }
    }
  }

  ghost predicate Increasing(s: seq<nat>) {
    forall i, j :: 0 <= i < j < |s| ==> s[i] < s[j]
  }

  function Insert(x: nat, s: seq<nat>): (r: seq<nat>)
    requires Increasing(s)
    ensures Increasing(r)
    ensures forall y :: y in r <==> y == x || y in s
  {
    if s == [] then [x]
    else if x < s[0] then [x] + s
    else if x == s[0] then s
    else
      var rest := Insert(x, s[1..]);
      assert forall k :: 0 <= k < |rest| ==> s[0] < rest[k] by {
        forall k | 0 <= k < |rest| ensures s[0] < rest[k] {
          assert rest[k] in rest;
          if rest[k] != x { assert rest[k] in s[1..]; }
        }
      }
      [s[0]] + rest
  }

  /** The numbers of `s` in ascending order; row numbers are distinct, so none is lost. */
  function Sort(s: seq<nat>): (r: seq<nat>)
    ensures Increasing(r)
    ensures forall y :: y in r <==> y in s
  {
    if s == [] then [] else Insert(s[0], Sort(s[1..]))
  }

  /** The first rows of the versions, in the order they were made. */
  function Starts(siblings: seq<Sibling>): (starts: seq<nat>)
    requires Numbered(siblings)
    ensures Increasing(starts)
    ensures forall row :: row in starts <==> IsStart(siblings, row)
  {
    Sort(Firsts(siblings, siblings))
  }

  function IndexOf(s: seq<nat>, x: nat): (at: nat)
    ensures at <= |s|
    ensures at < |s| ==> s[at] == x
    ensures at < |s| <==> x in s
  {
    if s == [] then 0 else if s[0] == x then 0 else 1 + IndexOf(s[1..], x)
  }

  /** Where `row` stands among the versions of `siblings`; none when they make one version only. */
  function VersionsOf(siblings: seq<Sibling>, row: nat): Option<Standing>
    requires Numbered(siblings)
  {
    StandingAt(IndexOf(Starts(siblings), Start(siblings, row)), |Starts(siblings)|)
  }

  /** The standing of the version at `at` among `count`, both as 32-bit numbers. */
  function StandingAt(at: nat, count: nat): Option<Standing> {
    if count < 2 || at == count || at + 1 > U32_MAX || count > U32_MAX then None else Some(Standing(at + 1, count))
  }

  /** The rows of the `version`th version, from 1; none when there is no such version. */
  function VersionRows(siblings: seq<Sibling>, version: nat): Option<seq<nat>>
    requires Numbered(siblings)
  {
    var starts := Starts(siblings);
    if version == 0 || version > |starts| then None
    else Some(RowsFrom(siblings, siblings, starts[version - 1]))
  }

  // What the numbering promises.

  /** The versions 1 to the count are nonempty and share no row, each sibling is in one of them, and
      there is no other version. */
  lemma {:induction false} VersionsPartitionThePlace(siblings: seq<Sibling>)
    requires Numbered(siblings)
    ensures forall v: nat :: VersionRows(siblings, v).Some? <==> 1 <= v <= |Starts(siblings)|
    ensures forall v :: 1 <= v <= |Starts(siblings)| ==> VersionRows(siblings, v).value != []
    ensures forall v, w, row :: 1 <= v < w <= |Starts(siblings)| ==>
                                  !(row in VersionRows(siblings, v).value && row in VersionRows(siblings, w).value)
    ensures forall row :: Member(siblings, row) <==>
                            exists v :: 1 <= v <= |Starts(siblings)| && row in VersionRows(siblings, v).value
  {
    var starts := Starts(siblings);
    forall v | 1 <= v <= |starts| ensures VersionRows(siblings, v).value != [] {
      assert starts[v - 1] in starts;
      assert starts[v - 1] in VersionRows(siblings, v).value;
    }
    forall row | Member(siblings, row)
      ensures exists v :: 1 <= v <= |starts| && row in VersionRows(siblings, v).value
    {
      StartIsAFirstRow(siblings, row);
      var at := IndexOf(starts, Start(siblings, row));
      assert row in VersionRows(siblings, at + 1).value;
    }
  }

  lemma {:induction false} IndexOfMember(s: seq<nat>, at: nat)
    requires Increasing(s) && at < |s|
    ensures IndexOf(s, s[at]) == at
  {
    if at != 0 {
      assert s[1..][at - 1] == s[at];
      IndexOfMember(s[1..], at - 1);
    }
  }

  lemma {:induction false} InVersion(siblings: seq<Sibling>, row: nat, v: nat)
    requires Numbered(siblings) && Member(siblings, row) && 1 <= v <= |Starts(siblings)|
    ensures row in VersionRows(siblings, v).value <==> Start(siblings, row) == Starts(siblings)[v - 1]
  {
    var rows := RowsFrom(siblings, siblings, Starts(siblings)[v - 1]);
    assert row in rows <==> Start(siblings, row) == Starts(siblings)[v - 1];
  }

  lemma {:induction false} StartIsAmongTheStarts(siblings: seq<Sibling>, row: nat)
    requires Numbered(siblings) && Member(siblings, row)
    ensures IndexOf(Starts(siblings), Start(siblings, row)) < |Starts(siblings)|
  {
    StartIsAFirstRow(siblings, row);
    assert IsStart(siblings, Start(siblings, row));
  }

  /** A row is in the rows of version `v` exactly when its standing says it is the `v`th. */
  lemma {:induction false} RowsAndStandingsAgree(siblings: seq<Sibling>, row: nat, v: nat)
    requires Numbered(siblings) && Member(siblings, row)
    requires 2 <= |Starts(siblings)| <= U32_MAX
    ensures (VersionRows(siblings, v).Some? && row in VersionRows(siblings, v).value)
            <==> VersionsOf(siblings, row) == Some(Standing(v, |Starts(siblings)|))
  {
    var starts := Starts(siblings);
    StartIsAmongTheStarts(siblings, row);
    var at := IndexOf(starts, Start(siblings, row));
    if 1 <= v <= |starts| {
      InVersion(siblings, row, v);
      IndexOfMember(starts, v - 1);
    }
  }

  // How a new, highest-numbered sibling changes the versions.

  lemma {:induction false} SameElementsSameOrder(a: seq<nat>, b: seq<nat>)
    requires Increasing(a) && Increasing(b)
    requires forall y :: y in a <==> y in b
    ensures a == b
  {
    assert a != [] ==> a[0] in b;
    assert b != [] ==> b[0] in a;
    if a != [] {
      assert a[0] in a && a[0] in b;
      assert b[0] in b && b[0] in a;
      var i :| 0 <= i < |b| && b[i] == a[0];
      var j :| 0 <= j < |a| && a[j] == b[0];
      assert a[0] == b[0];
      forall y ensures y in a[1..] <==> y in b[1..] {
        if y in a[1..] { assert y in a && y != a[0]; }
        if y in b[1..] { assert y in b && y != b[0]; }
      }
      SameElementsSameOrder(a[1..], b[1..]);
    }
  }

  ghost predicate Newer(siblings: seq<Sibling>, row: nat) {
    forall i :: 0 <= i < |siblings| ==> siblings[i].row < row
  }

  lemma {:induction false} FindAfterAppend(siblings: seq<Sibling>, added: Sibling, row: nat)
    requires Numbered(siblings + [added]) && Newer(siblings, added.row)
    ensures Member(siblings + [added], row) <==> Member(siblings, row) || row == added.row
    ensures row != added.row ==>
              (Find(siblings + [added], row) < |siblings| + 1 <==> Find(siblings, row) < |siblings|)
    ensures Member(siblings, row) ==> Find(siblings + [added], row) == Find(siblings, row)
    ensures Find(siblings + [added], added.row) == |siblings|
  {
    var more := siblings + [added];
    assert more[|siblings|].row == added.row;
    if Member(siblings, row) {
      var i :| 0 <= i < |siblings| && siblings[i].row == row;
      assert more[i].row == row;
      var at := Find(more, row);
      assert more[at].row == row == more[i].row;
      var before := Find(siblings, row);
      assert more[before].row == row;
    }
    if Member(more, row) && row != added.row {
      var i :| 0 <= i < |more| && more[i].row == row;
      assert siblings[i].row == row;
    }
    var at := Find(more, added.row);
    assert more[at].row == more[|siblings|].row;
  }

  lemma {:induction false} StartAfterAppend(siblings: seq<Sibling>, added: Sibling, row: nat)
    requires Numbered(siblings) && Numbered(siblings + [added]) && Newer(siblings, added.row)
    requires Member(siblings, row)
    ensures Start(siblings + [added], row) == Start(siblings, row)
    decreases row
  {
    FindAfterAppend(siblings, added, row);
    var at := Find(siblings, row);
    if siblings[at].inPlaceOf.Some? {
      var replaced := siblings[at].inPlaceOf.value;
      FindAfterAppend(siblings, added, replaced);
      if Member(siblings, replaced) {
        StartAfterAppend(siblings, added, replaced);
      }
    }
  }

  /** A sibling that replaces a sibling joins that one's version: the place keeps its versions. */
  lemma {:induction false} ReplacingKeepsTheVersions(siblings: seq<Sibling>, added: Sibling)
    requires Numbered(siblings) && Numbered(siblings + [added]) && Newer(siblings, added.row)
    requires added.inPlaceOf.Some? && Member(siblings, added.inPlaceOf.value)
    ensures Starts(siblings + [added]) == Starts(siblings)
    ensures Start(siblings + [added], added.row) == Start(siblings, added.inPlaceOf.value)
  {
    var more := siblings + [added];
    FindAfterAppend(siblings, added, added.row);
    FindAfterAppend(siblings, added, added.inPlaceOf.value);
    StartAfterAppend(siblings, added, added.inPlaceOf.value);
    StartIsAFirstRow(siblings, added.inPlaceOf.value);
    forall row ensures IsStart(more, row) <==> IsStart(siblings, row) {
      FindAfterAppend(siblings, added, row);
      if Member(siblings, row) {
        StartAfterAppend(siblings, added, row);
      }
    }
    SameElementsSameOrder(Starts(more), Starts(siblings));
  }

  /** A sibling that replaces none of the others begins a version of its own, numbered last. */
  lemma {:induction false} AnyOtherBeginsAVersion(siblings: seq<Sibling>, added: Sibling)
    requires Numbered(siblings) && Numbered(siblings + [added]) && Newer(siblings, added.row)
    requires added.inPlaceOf.None? || !Member(siblings, added.inPlaceOf.value)
    ensures Starts(siblings + [added]) == Starts(siblings) + [added.row]
    ensures Start(siblings + [added], added.row) == added.row
  {
    var more := siblings + [added];
    FindAfterAppend(siblings, added, added.row);
    if added.inPlaceOf.Some? {
      FindAfterAppend(siblings, added, added.inPlaceOf.value);
    }
    forall row ensures IsStart(more, row) <==> IsStart(siblings, row) || row == added.row {
      FindAfterAppend(siblings, added, row);
      if Member(siblings, row) {
        StartAfterAppend(siblings, added, row);
      }
    }
    var longer := Starts(siblings) + [added.row];
    forall i | 0 <= i < |Starts(siblings)| ensures Starts(siblings)[i] < added.row {
      assert Starts(siblings)[i] in Starts(siblings);
    }
    forall row ensures row in Starts(more) <==> row in longer {
    }
    SameElementsSameOrder(Starts(more), longer);
  }
}
