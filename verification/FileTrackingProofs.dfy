/** What a list keeps of the files and edits of its calls, over every run of calls. */
module FileTrackingProofs {
  import opened Wrappers
  import opened Paths
  import opened FileTracking

  // A removed file existed before and has no old name, and a file with an old name existed before.

  ghost predicate IsNearest(own: seq<EditedFile>, path: Path, k: nat) {
    && k < |own| && IsWithin(path, own[k].path)
    && forall j :: 0 <= j < |own| && j != k && IsWithin(path, own[j].path) ==>
         |own[j].path| < |own[k].path| || (|own[j].path| == |own[k].path| && j < k)
  }

  /** A path is marked by the file that holds it most closely, the last of those. */
  lemma {:induction false} TheNearestIsTheLastOfTheLongest(own: seq<EditedFile>, path: Path) returns (k: nat)
    requires Nearest(own, path).Some?
    ensures IsNearest(own, path, k) && Nearest(own, path) == Some(own[k])
  {
    var (before, last) := (own[..|own| - 1], |own| - 1);
    assert forall j :: 0 <= j < last ==> before[j] == own[j];
    k := last;
    if IsWithin(path, own[last].path)
       && (Nearest(before, path).None? || |Nearest(before, path).value.path| <= |own[last].path|) {
      forall j | 0 <= j < last && IsWithin(path, own[j].path) ensures |own[j].path| <= |own[last].path| {
        assert before[j] in before;
      }
    } else {
      k := TheNearestIsTheLastOfTheLongest(before, path);
    }
  }

  lemma {:induction false} RemovalKeepsCoherence(files: seq<Tracked>, path: Path, outside: bool)
    requires Coherent(files)
    ensures Coherent(RemovedIn(files, path, outside))
  {
    if files != [] {
      RemovalKeepsCoherence(files[..|files| - 1], path, outside);
    }
  }

  lemma {:induction false} AMoveKeepsCoherence(order: Order, files: seq<Tracked>, at: nat, from: Path, target: Path,
                                               own: seq<EditedFile>, arrived: set<Path>)
    requires Coherent(files) && at < |files| && !files[at].removed
    ensures var moved := MovedOne(order, files, at, from, target, own, arrived).files;
            Coherent(moved) && forall k :: 0 <= k < at ==> !files[k].removed ==> !moved[k].removed
  {
  }

  lemma {:induction false} MovesKeepCoherence(order: Order, files: seq<Tracked>, moved: seq<nat>, from: Path,
                                              target: Path, own: seq<EditedFile>, arrived: set<Path>)
    requires Coherent(files) && CanMove(files, moved)
    requires forall k :: 0 <= k < |moved| ==> !files[moved[k]].removed
    ensures Coherent(MovedEach(order, files, moved, from, target, own, arrived).files)
    decreases |moved|
  {
    if moved != [] {
      var at := moved[|moved| - 1];
      AMoveKeepsCoherence(order, files, at, from, target, own, arrived);
      var one := MovedOne(order, files, at, from, target, own, arrived);
      if !one.stopped {
        MovesKeepCoherence(order, one.files, moved[..|moved| - 1], from, target, own, one.arrived);
      }
    }
  }

  lemma {:induction false} ChangesKeepCoherence(order: Order, files: seq<Tracked>, changes: seq<PathChange>,
                                                own: seq<EditedFile>, arrived: set<Path>)
    requires Coherent(files)
    ensures Coherent(AfterChanges(order, files, changes, own, arrived).files)
    decreases |changes|
  {
    if changes != [] {
      match changes[0]
      case Removed(path) =>
        RemovalKeepsCoherence(files, path, Marked(own, Stripped(path)));
        ChangesKeepCoherence(order, AfterRemoval(files, path, own), changes[1..], own, arrived);
      case Moved(from, target) =>
        MovesKeepCoherence(order, files, MovedBy(files, from), from, target, own, arrived);
        var renamed := AfterRename(order, files, from, target, own, arrived);
        if !renamed.stopped {
          ChangesKeepCoherence(order, renamed.files, changes[1..], own, renamed.arrived);
        }
    }
  }

  lemma {:induction false} WritesKeepCoherence(files: seq<Tracked>, call: CommandId, report: seq<Written>,
                                               own: seq<EditedFile>, arrived: set<Path>)
    requires Coherent(files)
    ensures Coherent(AfterWrites(files, call, report, own, arrived))
  {
    if report != [] {
      WritesKeepCoherence(files, call, report[..|report| - 1], own, arrived);
    }
  }

  lemma {:induction false} ACallKeepsFilesCoherent(
      s: State, call: CommandId, report: seq<Written>, changes: seq<PathChange>,
                                own: seq<EditedFile>)
    requires Coherent(s.files)
    ensures Coherent(AfterCall(s, call, report, changes, own).files)
  {
    var order := Numbered(s.order, call);
    ChangesKeepCoherence(order, s.files, changes, own, {});
    var moves := AfterChanges(order, s.files, changes, own, {});
    WritesKeepCoherence(moves.files, call, report, own, moves.arrived);
  }

  // Edits are neither lost nor made twice.

  /** How often `edit` is among the edits. */
  function Times(edits: seq<FileEdit>, edit: FileEdit): nat {
    if edits == [] then 0
    else Times(edits[..|edits| - 1], edit) + if edits[|edits| - 1] == edit then 1 else 0
  }

  function TimesListed(files: seq<Tracked>, edit: FileEdit): nat {
    if files == [] then 0
    else TimesListed(files[..|files| - 1], edit) + Times(files[|files| - 1].edits, edit)
  }

  lemma {:induction false} TimesInBoth(a: seq<FileEdit>, b: seq<FileEdit>, edit: FileEdit)
    ensures Times(a + b, edit) == Times(a, edit) + Times(b, edit)
  {
    if b == [] {
      assert a + b == a;
    } else {
      assert (a + b)[..|a + b| - 1] == a + b[..|b| - 1];
      TimesInBoth(a, b[..|b| - 1], edit);
    }
  }

  lemma {:induction false} TimesListedInBoth(a: seq<Tracked>, b: seq<Tracked>, edit: FileEdit)
    ensures TimesListed(a + b, edit) == TimesListed(a, edit) + TimesListed(b, edit)
  {
    if b == [] {
      assert a + b == a;
    } else {
      assert (a + b)[..|a + b| - 1] == a + b[..|b| - 1];
      TimesListedInBoth(a, b[..|b| - 1], edit);
    }
  }

  lemma {:induction false} TimesListedInOneMore(files: seq<Tracked>, file: Tracked, edit: FileEdit)
    ensures TimesListed(files + [file], edit) == TimesListed(files, edit) + Times(file.edits, edit)
  {
    assert (files + [file])[..|files|] == files;
  }

  lemma {:induction false} TimesAround(files: seq<Tracked>, at: nat, file: Tracked, edit: FileEdit)
    requires at < |files|
    ensures TimesListed(files, edit)
            == TimesListed(files[..at], edit) + Times(files[at].edits, edit) + TimesListed(files[at + 1..], edit)
    ensures TimesListed(files[at := file], edit)
            == TimesListed(files[..at], edit) + Times(file.edits, edit) + TimesListed(files[at + 1..], edit)
  {
    assert files == files[..at] + [files[at]] + files[at + 1..];
    TimesListedInBoth(files[..at] + [files[at]], files[at + 1..], edit);
    TimesListedInOneMore(files[..at], files[at], edit);
    assert files[at := file] == files[..at] + [file] + files[at + 1..];
    TimesListedInBoth(files[..at] + [file], files[at + 1..], edit);
    TimesListedInOneMore(files[..at], file, edit);
  }

  lemma {:induction false} TimesWithOneReplaced(files: seq<Tracked>, at: nat, file: Tracked, edit: FileEdit)
    requires at < |files|
    ensures TimesListed(files[at := file], edit) + Times(files[at].edits, edit)
            == TimesListed(files, edit) + Times(file.edits, edit)
  {
    TimesAround(files, at, file, edit);
  }

  lemma {:induction false} TimesWithOneTaken(files: seq<Tracked>, at: nat, edit: FileEdit)
    requires at < |files|
    ensures TimesListed(Without(files, at), edit) + Times(files[at].edits, edit) == TimesListed(files, edit)
  {
    TimesAround(files, at, files[at], edit);
    TimesListedInBoth(files[..at], files[at + 1..], edit);
  }

  lemma {:induction false} PlacingAddsTheEdit(order: Order, sorted: seq<FileEdit>, placed: FileEdit, edit: FileEdit)
    ensures Times(Placed(order, sorted, placed), edit) == Times(sorted, edit) + if placed == edit then 1 else 0
  {
    if sorted == [] || RankOf(order, sorted[|sorted| - 1]) <= RankOf(order, placed) {
      assert (sorted + [placed])[..|sorted|] == sorted;
    } else {
      var (before, last) := (sorted[..|sorted| - 1], sorted[|sorted| - 1]);
      PlacingAddsTheEdit(order, before, placed, edit);
      var after := Placed(order, before, placed);
      assert (after + [last])[..|after|] == after;
    }
  }

  lemma {:induction false} OrderingKeepsTheEdits(order: Order, edits: seq<FileEdit>, edit: FileEdit)
    ensures Times(InCallOrder(order, edits), edit) == Times(edits, edit)
  {
    if edits != [] {
      OrderingKeepsTheEdits(order, edits[..|edits| - 1], edit);
      PlacingAddsTheEdit(order, InCallOrder(order, edits[..|edits| - 1]), edits[|edits| - 1], edit);
    }
  }

  lemma {:induction false} AMergedFileHasBothEdits(
      order: Order, kept: Tracked, moving: Tracked, outside: bool, edit: FileEdit)
    ensures Times(MergedFile(order, kept, moving, outside).edits, edit)
            == Times(kept.edits, edit) + Times(moving.edits, edit)
  {
    OrderingKeepsTheEdits(order, kept.edits + moving.edits, edit);
    TimesInBoth(kept.edits, moving.edits, edit);
  }

  /** A merge of a file into another keeps every edit once. One of a file into itself keeps an edit's
      number only when the file after it, which gives way, has the edit as often. */
  lemma {:induction false} MergingKeepsTheEditsExactlyWhen(order: Order, files: seq<Tracked>, at: nat, target: nat,
                                                           outside: bool, edit: FileEdit)
    requires at < |files| && target < |files| && !MergesPastTheEnd(files, at, target)
    ensures TimesListed(MergedInto(order, files, at, target, outside), edit) == TimesListed(files, edit)
            <==> (at != target || Times(files[at].edits, edit) == Times(files[at + 1].edits, edit))
  {
    var (first, last) := if at < target then (at, target) else (target, at);
    AMergedFileHasBothEdits(order, files[target], files[at], outside, edit);
    TimesWithOneTaken(files, last, edit);
    TimesWithOneReplaced(Without(files, last), first, MergedFile(order, files[target], files[at], outside), edit);
  }

  lemma {:induction false} RenamingAtKeepsTheEdits(
      files: seq<Tracked>, at: nat, path: Path, outside: bool, edit: FileEdit)
    requires at < |files|
    ensures TimesListed(RenamedAt(files, at, path, outside), edit) == TimesListed(files, edit)
  {
    var renamed := RenamedAt(files, at, path, outside);
    assert renamed == files[at := renamed[at]];
    TimesWithOneReplaced(files, at, renamed[at], edit);
  }

  // One file of a rename.

  /** The name a rename gives the file is the one it has. */
  predicate NamesItself(was: Path, from: Path, target: Path) {
    var length := |Stripped(from)|;
    length <= |was| && IsBoundary(was, length) && target == was[..length]
  }

  lemma {:induction false} TheNewPathIsTheOldExactlyWhen(was: Path, from: Path, target: Path)
    ensures NewPath(was, from, target) == Some(was) <==> NamesItself(was, from, target)
  {
    var length := |Stripped(from)|;
    if length <= |was| && IsBoundary(was, length) {
      assert was == was[..length] + was[length..];
      if target + was[length..] == was {
        assert |target| == length;
        assert (target + was[length..])[..length] == target;
      }
    }
  }

  /** A file is renamed unless its path is too short for the old one or is cut within a character, or it
      is the last of the list and its own new name: then the rename panics. */
  lemma {:induction false} AMoveStopsExactlyWhen(order: Order, files: seq<Tracked>, at: nat, from: Path, target: Path,
                                                 own: seq<EditedFile>, arrived: set<Path>)
    requires at < |files|
    ensures MovedOne(order, files, at, from, target, own, arrived).stopped
            <==> || NewPath(files[at].path, from, target).None?
                 || (NamesItself(files[at].path, from, target) && at + 1 == |files| && FirstAt(files, files[at].path) == at)
  {
    TheNewPathIsTheOldExactlyWhen(files[at].path, from, target);
  }

  /** A move that does not stop keeps an edit's number unless, and only if, the file is its own new name
      and the one after it, which gives way, has the edit another number of times. */
  lemma {:induction false} AMoveKeepsTheEditsExactlyWhen(
      order: Order, files: seq<Tracked>, at: nat, from: Path, target: Path,
                                                         own: seq<EditedFile>, arrived: set<Path>, edit: FileEdit)
    requires at < |files| && !MovedOne(order, files, at, from, target, own, arrived).stopped
    ensures TimesListed(MovedOne(order, files, at, from, target, own, arrived).files, edit) == TimesListed(files, edit)
            <==> (NamesItself(files[at].path, from, target) && FirstAt(files, files[at].path) == at ==>
                    Times(files[at].edits, edit) == Times(files[at + 1].edits, edit))
  {
    TheNewPathIsTheOldExactlyWhen(files[at].path, from, target);
    AMoveStopsExactlyWhen(order, files, at, from, target, own, arrived);
    var path := NewPath(files[at].path, from, target).value;
    var found := FirstAt(files, path);
    if found == |files| {
      RenamingAtKeepsTheEdits(files, at, path, Marked(own, path), edit);
    } else {
      MergingKeepsTheEditsExactlyWhen(order, files, at, found, Marked(own, path), edit);
    }
  }

  // A whole rename.

  /** No file that a rename moves is its own new name, and each has one. */
  ghost predicate BringsElsewhere(files: seq<Tracked>, moved: seq<nat>, from: Path, target: Path)
    requires CanMove(files, moved)
  {
    forall k :: 0 <= k < |moved| ==>
                  && NewPath(files[moved[k]].path, from, target).Some?
                  && !NamesItself(files[moved[k]].path, from, target)
  }

  lemma {:induction false} MovesKeepTheEdits(order: Order, files: seq<Tracked>, moved: seq<nat>, from: Path,
                                             target: Path, own: seq<EditedFile>, arrived: set<Path>, edit: FileEdit)
    requires CanMove(files, moved) && BringsElsewhere(files, moved, from, target)
    ensures var r := MovedEach(order, files, moved, from, target, own, arrived);
            !r.stopped && TimesListed(r.files, edit) == TimesListed(files, edit)
    decreases |moved|
  {
    if moved != [] {
      var at := moved[|moved| - 1];
      AMoveStopsExactlyWhen(order, files, at, from, target, own, arrived);
      AMoveKeepsTheEditsExactlyWhen(order, files, at, from, target, own, arrived, edit);
      var one := MovedOne(order, files, at, from, target, own, arrived);
      MovesKeepTheEdits(order, one.files, moved[..|moved| - 1], from, target, own, one.arrived, edit);
    }
  }

  lemma {:induction false} APlainPathIsFollowed(was: Path, from: Path, target: Path)
    requires IsPlain(from) && IsWithin(was, from)
    ensures |Stripped(from)| <= |was| && was[..|Stripped(from)|] == Stripped(from)
    ensures NewPath(was, from, target) == Some(target + was[|Stripped(from)|..])
    ensures NamesItself(was, from, target) <==> target == Stripped(from)
  {
  }

  /** A rename of a path with no separators at its end but one slash, to another path, neither loses an
      edit nor makes one twice, and does not stop. */
  lemma {:induction false} ARenameKeepsTheEdits(order: Order, files: seq<Tracked>, from: Path, target: Path,
                                                own: seq<EditedFile>, arrived: set<Path>, edit: FileEdit)
    requires IsPlain(from) && target != Stripped(from)
    ensures var r := AfterRename(order, files, from, target, own, arrived);
            !r.stopped && TimesListed(r.files, edit) == TimesListed(files, edit)
  {
    var moved := MovedBy(files, from);
    forall k | 0 <= k < |moved| ensures NewPath(files[moved[k]].path, from, target).Some?
                                        && !NamesItself(files[moved[k]].path, from, target) {
      APlainPathIsFollowed(files[moved[k]].path, from, target);
    }
    MovesKeepTheEdits(order, files, moved, from, target, own, arrived, edit);
    TimesListedInOneMore(files, Tracked(target, true, false, Some(from), Marked(own, target), []), edit);
  }

  // A rename of a path to itself.

  ghost predicate DistinctPaths(files: seq<Tracked>) {
    forall j, k :: 0 <= j < k < |files| ==> files[j].path != files[k].path
  }

  lemma {:induction false} AMergeIntoItselfTakesTheNext(order: Order, files: seq<Tracked>, at: nat, outside: bool)
    requires DistinctPaths(files) && at + 1 < |files|
    ensures var merged := MergedInto(order, files, at, at, outside);
            DistinctPaths(merged) && forall k :: 0 <= k < at ==> merged[k] == files[k]
  {
    var merged := MergedInto(order, files, at, at, outside);
    assert forall k :: 0 <= k < |merged| ==> merged[k].path == files[if k <= at then k else k + 1].path;
  }

  lemma {:induction false} AMoveToItselfTakesTheNext(order: Order, files: seq<Tracked>, at: nat, from: Path, target: Path,
                                                     own: seq<EditedFile>, arrived: set<Path>)
    requires DistinctPaths(files) && at < |files| && NamesItself(files[at].path, from, target)
    ensures var one := MovedOne(order, files, at, from, target, own, arrived);
            && (one.stopped <==> at + 1 == |files|)
            && (!one.stopped ==> && |one.files| == |files| - 1 && DistinctPaths(one.files)
                                 && forall k :: 0 <= k < at ==> one.files[k] == files[k])
  {
    TheNewPathIsTheOldExactlyWhen(files[at].path, from, target);
    assert FirstAt(files, files[at].path) == at;
    if at + 1 < |files| {
      AMergeIntoItselfTakesTheNext(order, files, at, Marked(own, files[at].path));
    }
  }

  lemma {:induction false} MovesToThemselvesTakeTheNext(order: Order, files: seq<Tracked>, moved: seq<nat>, from: Path,
                                                        target: Path, own: seq<EditedFile>, arrived: set<Path>)
    requires DistinctPaths(files) && CanMove(files, moved)
    requires forall k :: 0 <= k < |moved| ==> NamesItself(files[moved[k]].path, from, target)
    ensures var r := MovedEach(order, files, moved, from, target, own, arrived);
            && (r.stopped <==> moved != [] && moved[|moved| - 1] + 1 == |files|)
            && (!r.stopped ==> |r.files| == |files| - |moved|)
    decreases |moved|
  {
    if moved != [] {
      var (at, before) := (moved[|moved| - 1], moved[..|moved| - 1]);
      AMoveToItselfTakesTheNext(order, files, at, from, target, own, arrived);
      var one := MovedOne(order, files, at, from, target, own, arrived);
      if !one.stopped {
        MovesToThemselvesTakeTheNext(order, one.files, before, from, target, own, one.arrived);
        assert before != [] ==> before[|before| - 1] < at;
      }
    }
  }

  /** A rename of a path to itself: each file it moves takes the place of the file after it, which is
      lost, and the rename panics exactly when the last file it moves is the last of the list. */
  lemma {:induction false} ARenameToItselfTakesTheNext(
      order: Order, files: seq<Tracked>, from: Path, own: seq<EditedFile>,
                                                       arrived: set<Path>)
    requires DistinctPaths(files) && IsPlain(from) && MovedBy(files, from) != []
    ensures var (moved, r) := (MovedBy(files, from), AfterRename(order, files, from, Stripped(from), own, arrived));
            && (r.stopped <==> moved[|moved| - 1] + 1 == |files|)
            && (!r.stopped ==> |r.files| == |files| - |moved|)
  {
    var moved := MovedBy(files, from);
    forall k | 0 <= k < |moved| ensures NamesItself(files[moved[k]].path, from, Stripped(from)) {
      APlainPathIsFollowed(files[moved[k]].path, from, Stripped(from));
    }
    MovesToThemselvesTakeTheNext(order, files, moved, from, Stripped(from), own, arrived);
  }

  lemma {:induction false} TwoFilesAreMovedBy(a: Tracked, b: Tracked)
    requires a.path == "a" && b.path == "b" && !a.removed
    ensures MovedBy([a], "a") == [0] && MovedBy([a, b], "a") == [0] && IsPlain("a") && Stripped("a") == "a"
  {
    assert Trimmed("a") == "a";
    assert [a][..0] == [] && [a, b][..1] == [a];
    assert IsWithin("a", "a") && !IsWithin("b", "a");
    assert MovedBy([a], "a") == [0];
  }

  lemma {:induction false} TheFirstOfTwoMoves(a: Tracked, b: Tracked)
    requires a.path == "a" && b.path == "b" && !a.removed && !a.outside
    ensures AfterRename(map[], [a, b], "a", "a", [], {}) == Moves([MergedFile(map[], a, a, false)], {}, false)
  {
    TwoFilesAreMovedBy(a, b);
    TheNewPathIsTheOldExactlyWhen("a", "a", "a");
    assert FirstAt([a, b], "a") == 0;
    assert Without([a, b], 0) == [b];
    assert MovedOne(map[], [a, b], 0, "a", "a", [], {}) == Moves([MergedFile(map[], a, a, false)], {}, false);
    assert [0][..0] == [];
  }

  lemma {:induction false} AFileMergedIntoItself(a: Tracked, edit: FileEdit, other: FileEdit)
    requires a.edits == [edit] && edit != other
    ensures var files := [MergedFile(map[], a, a, false)];
            TimesListed(files, edit) == 2 && TimesListed(files, other) == 0
  {
    var merged := MergedFile(map[], a, a, false);
    AMergedFileHasBothEdits(map[], a, a, false, edit);
    AMergedFileHasBothEdits(map[], a, a, false, other);
    TimesListedInOneMore([], merged, edit);
    TimesListedInOneMore([], merged, other);
    assert [] + [merged] == [merged];
    assert [edit][..0] == [];
  }

  /** Two files, of which the first is renamed to its own path: its edit is there twice and the other is
      gone. With the first file alone, the rename panics. */
  lemma {:induction false} ARenameToItselfMayLoseAFile(edit: FileEdit, other: FileEdit)
    requires edit != other
    ensures var a := Tracked("a", true, false, None, false, [edit]);
            var b := Tracked("b", true, false, None, false, [other]);
            var r := AfterRename(map[], [a, b], "a", "a", [], {});
            && !r.stopped && |r.files| == 1 && TimesListed(r.files, edit) == 2 && TimesListed(r.files, other) == 0
            && AfterRename(map[], [a], "a", "a", [], {}).stopped
  {
    var a := Tracked("a", true, false, None, false, [edit]);
    var b := Tracked("b", true, false, None, false, [other]);
    TwoFilesAreMovedBy(a, b);
    TheFirstOfTwoMoves(a, b);
    ARenameToItselfTakesTheNext(map[], [a], "a", [], {});
    AFileMergedIntoItself(a, edit, other);
  }

  // A rename of a path with more separators at its end.

  /** A moved file's new name is the new path with all that followed the old one exactly when the old
      path ends with no separator but one slash: with more, the move panics or drops separators. */
  lemma {:induction false} TheRestOfThePathIsKeptExactlyWhen(was: Path, from: Path, target: Path)
    requires IsWithin(was, from)
    ensures NewPath(was, from, target) == Some(target + was[|Trimmed(from)|..]) <==> IsPlain(from)
    ensures was == Trimmed(from) && !IsPlain(from) ==> NewPath(was, from, target).None?
  {
    var (trimmed, stripped) := (Trimmed(from), Stripped(from));
    assert trimmed == from[..|trimmed|] && stripped == from[..|stripped|];
    assert |trimmed| <= |stripped|;
    if IsPlain(from) {
      APlainPathIsFollowed(was, from, target);
    } else {
      assert |trimmed| < |stripped|;
      if NewPath(was, from, target).Some? {
        assert |target + was[|stripped|..]| < |target + was[|trimmed|..]|;
      }
    }
  }

  /** The files the list created in a path. */
  function CreatedWithin(files: seq<Tracked>, path: Path): (created: seq<Tracked>) {
    if files == [] then []
    else
      var (before, last) := (CreatedWithin(files[..|files| - 1], path), files[|files| - 1]);
      if IsWithin(last.path, path) && !last.existed then before + [last] else before
  }

  /** A removal takes the edits of the files the list created in the path, and no other. */
  lemma {:induction false} ARemovalTakesTheCreatedFilesEdits(files: seq<Tracked>, path: Path, outside: bool,
                                                             edit: FileEdit)
    ensures TimesListed(RemovedIn(files, path, outside), edit) + TimesListed(CreatedWithin(files, path), edit)
            == TimesListed(files, edit)
  {
    if files != [] {
      var (before, last) := (files[..|files| - 1], files[|files| - 1]);
      ARemovalTakesTheCreatedFilesEdits(before, path, outside, edit);
      var rest := RemovedIn(before, path, outside);
      TimesListedInOneMore(rest, last, edit);
      TimesListedInOneMore(rest, RemovedFile(last, outside), edit);
      TimesListedInOneMore(CreatedWithin(before, path), last, edit);
    }
  }

  /** After a removal no file that the list created is listed in the path: each file is one that was
      outside the path and is as it was, or one that was there before, now deleted. */
  lemma {:induction false} ACreatedFileRemovedIsNotListed(files: seq<Tracked>, path: Path, outside: bool, file: Tracked)
    ensures file in RemovedIn(files, path, outside) <==>
              || (file in files && !IsWithin(file.path, path))
              || exists k :: 0 <= k < |files| && IsWithin(files[k].path, path) && files[k].existed
                             && file == RemovedFile(files[k], outside)
  {
    if files != [] {
      var (before, last) := (files[..|files| - 1], files[|files| - 1]);
      ACreatedFileRemovedIsNotListed(before, path, outside, file);
      assert files == before + [last];
      if k :| 0 <= k < |before| && IsWithin(before[k].path, path) && before[k].existed
              && file == RemovedFile(before[k], outside) {
        assert files[k] == before[k];
      }
    }
  }

  lemma {:induction false} AWriteAddsItsEdits(files: seq<Tracked>, call: CommandId, file: Written, own: seq<EditedFile>,
                           arrived: set<Path>, edit: FileEdit)
    ensures TimesListed(AfterWrite(files, call, file, own, arrived), edit)
            == TimesListed(files, edit) + Times(NewEdits(call, file), edit)
  {
    var found := FirstAt(files, file.path);
    var created := Tracked(file.path, file.modified, false, None, false, []);
    var listed := if found < |files| then files else files + [created];
    TimesListedInOneMore(files, created, edit);
    var after := AfterWrite(files, call, file, own, arrived);
    assert after == listed[found := after[found]];
    TimesWithOneReplaced(listed, found, after[found], edit);
    TimesInBoth(listed[found].edits, NewEdits(call, file), edit);
  }

  function TimesReported(call: CommandId, report: seq<Written>, edit: FileEdit): nat {
    if report == [] then 0
    else TimesReported(call, report[..|report| - 1], edit) + Times(NewEdits(call, report[|report| - 1]), edit)
  }

  /** What a call wrote adds its edits, each once. */
  lemma {:induction false} WritesAddTheirEdits(files: seq<Tracked>, call: CommandId, report: seq<Written>,
                                               own: seq<EditedFile>, arrived: set<Path>, edit: FileEdit)
    ensures TimesListed(AfterWrites(files, call, report, own, arrived), edit)
            == TimesListed(files, edit) + TimesReported(call, report, edit)
  {
    if report != [] {
      var before := report[..|report| - 1];
      WritesAddTheirEdits(files, call, before, own, arrived, edit);
      AWriteAddsItsEdits(AfterWrites(files, call, before, own, arrived), call, report[|report| - 1], own, arrived, edit);
    }
  }

  // Each file's edits stay in the order of their calls.

  ghost predicate Sorted(order: Order, edits: seq<FileEdit>) {
    forall j, k :: 0 <= j < k < |edits| ==> RankOf(order, edits[j]) <= RankOf(order, edits[k])
  }

  lemma {:induction false} PlacingKeepsOrder(order: Order, sorted: seq<FileEdit>, edit: FileEdit)
    requires Sorted(order, sorted)
    ensures Sorted(order, Placed(order, sorted, edit))
    ensures forall e :: e in Placed(order, sorted, edit) <==> e in sorted || e == edit
  {
    if !(sorted == [] || RankOf(order, sorted[|sorted| - 1]) <= RankOf(order, edit)) {
      var (before, last) := (sorted[..|sorted| - 1], sorted[|sorted| - 1]);
      PlacingKeepsOrder(order, before, edit);
      assert sorted == before + [last];
      var placed := Placed(order, before, edit);
      forall j | 0 <= j < |placed| ensures RankOf(order, placed[j]) <= RankOf(order, last) {
        assert placed[j] in placed;
      }
    }
  }

  lemma {:induction false} OrderingSorts(order: Order, edits: seq<FileEdit>)
    ensures Sorted(order, InCallOrder(order, edits))
    ensures forall e :: e in InCallOrder(order, edits) <==> e in edits
  {
    if edits != [] {
      OrderingSorts(order, edits[..|edits| - 1]);
      PlacingKeepsOrder(order, InCallOrder(order, edits[..|edits| - 1]), edits[|edits| - 1]);
      assert edits == edits[..|edits| - 1] + [edits[|edits| - 1]];
    }
  }

  /** The edits of the calls of one rank, as they stand. */
  function OfRank(order: Order, edits: seq<FileEdit>, rank: nat): seq<FileEdit> {
    if edits == [] then []
    else
      OfRank(order, edits[..|edits| - 1], rank)
      + if RankOf(order, edits[|edits| - 1]) == rank then [edits[|edits| - 1]] else []
  }

  function IfOfRank(order: Order, edit: FileEdit, rank: nat): seq<FileEdit> {
    if RankOf(order, edit) == rank then [edit] else []
  }

  lemma {:induction false} OfRankWithOneMore(order: Order, edits: seq<FileEdit>, edit: FileEdit, rank: nat)
    ensures OfRank(order, edits + [edit], rank) == OfRank(order, edits, rank) + IfOfRank(order, edit, rank)
  {
    assert (edits + [edit])[..|edits|] == edits;
  }

  lemma {:induction false} PlacingKeepsEachRank(order: Order, sorted: seq<FileEdit>, edit: FileEdit, rank: nat)
    ensures OfRank(order, Placed(order, sorted, edit), rank)
            == OfRank(order, sorted, rank) + IfOfRank(order, edit, rank)
  {
    if sorted == [] || RankOf(order, sorted[|sorted| - 1]) <= RankOf(order, edit) {
      OfRankWithOneMore(order, sorted, edit, rank);
    } else {
      var (before, last) := (sorted[..|sorted| - 1], sorted[|sorted| - 1]);
      assert sorted == before + [last];
      PlacingKeepsEachRank(order, before, edit, rank);
      OfRankWithOneMore(order, Placed(order, before, edit), last, rank);
      OfRankWithOneMore(order, before, last, rank);
      assert IfOfRank(order, edit, rank) == [] || IfOfRank(order, last, rank) == [];
    }
  }

  /** A merge keeps the edits of each call in their order. */
  lemma {:induction false} OrderingKeepsEachCallsEdits(order: Order, edits: seq<FileEdit>, rank: nat)
    ensures OfRank(order, InCallOrder(order, edits), rank) == OfRank(order, edits, rank)
  {
    if edits != [] {
      OrderingKeepsEachCallsEdits(order, edits[..|edits| - 1], rank);
      PlacingKeepsEachRank(order, InCallOrder(order, edits[..|edits| - 1]), edits[|edits| - 1], rank);
    }
  }

  /** Every edit is of a call that came, and each file's edits are in their calls' order. */
  ghost predicate InOrder(order: Order, files: seq<Tracked>) {
    forall k :: 0 <= k < |files| ==>
                  Sorted(order, files[k].edits) && forall e :: e in files[k].edits ==> e.call in order
  }

  lemma {:induction false} RemovalKeepsOrder(order: Order, files: seq<Tracked>, path: Path, outside: bool)
    requires InOrder(order, files)
    ensures InOrder(order, RemovedIn(files, path, outside))
  {
    if files != [] {
      RemovalKeepsOrder(order, files[..|files| - 1], path, outside);
    }
  }

  lemma {:induction false} MergingKeepsOrder(order: Order, files: seq<Tracked>, at: nat, target: nat, outside: bool)
    requires InOrder(order, files) && at < |files| && target < |files| && !MergesPastTheEnd(files, at, target)
    ensures InOrder(order, MergedInto(order, files, at, target, outside))
  {
    OrderingSorts(order, files[target].edits + files[at].edits);
  }

  lemma {:induction false} AMoveKeepsOrder(order: Order, files: seq<Tracked>, at: nat, from: Path, target: Path,
                                           own: seq<EditedFile>, arrived: set<Path>)
    requires InOrder(order, files) && at < |files|
    ensures InOrder(order, MovedOne(order, files, at, from, target, own, arrived).files)
  {
    var path := NewPath(files[at].path, from, target);
    if path.Some? {
      var found := FirstAt(files, path.value);
      if found < |files| && !MergesPastTheEnd(files, at, found) {
        MergingKeepsOrder(order, files, at, found, Marked(own, path.value));
      }
    }
  }

  lemma {:induction false} MovesKeepOrder(order: Order, files: seq<Tracked>, moved: seq<nat>, from: Path,
                                          target: Path, own: seq<EditedFile>, arrived: set<Path>)
    requires InOrder(order, files) && CanMove(files, moved)
    ensures InOrder(order, MovedEach(order, files, moved, from, target, own, arrived).files)
    decreases |moved|
  {
    if moved != [] {
      var at := moved[|moved| - 1];
      AMoveKeepsOrder(order, files, at, from, target, own, arrived);
      var one := MovedOne(order, files, at, from, target, own, arrived);
      if !one.stopped {
        MovesKeepOrder(order, one.files, moved[..|moved| - 1], from, target, own, one.arrived);
      }
    }
  }

  lemma {:induction false} ChangesKeepOrder(order: Order, files: seq<Tracked>, changes: seq<PathChange>,
                                            own: seq<EditedFile>, arrived: set<Path>)
    requires InOrder(order, files)
    ensures InOrder(order, AfterChanges(order, files, changes, own, arrived).files)
    decreases |changes|
  {
    if changes != [] {
      match changes[0]
      case Removed(path) =>
        RemovalKeepsOrder(order, files, path, Marked(own, Stripped(path)));
        ChangesKeepOrder(order, AfterRemoval(files, path, own), changes[1..], own, arrived);
      case Moved(from, target) =>
        MovesKeepOrder(order, files, MovedBy(files, from), from, target, own, arrived);
        var renamed := AfterRename(order, files, from, target, own, arrived);
        if !renamed.stopped {
          ChangesKeepOrder(order, renamed.files, changes[1..], own, renamed.arrived);
        }
    }
  }

  /** No call that came is numbered after `call`. */
  ghost predicate IsLatest(order: Order, call: CommandId) {
    call in order && forall c :: c in order ==> order[c] <= order[call]
  }

  lemma {:induction false} AWriteKeepsOrder(
      order: Order, files: seq<Tracked>, call: CommandId, file: Written, own: seq<EditedFile>,
                         arrived: set<Path>)
    requires InOrder(order, files) && IsLatest(order, call)
    ensures InOrder(order, AfterWrite(files, call, file, own, arrived))
  {
    var after := AfterWrite(files, call, file, own, arrived);
    var found := FirstAt(files, file.path);
    var edits := if found < |files| then files[found].edits else [];
    assert after[found].edits == edits + NewEdits(call, file);
    forall j | 0 <= j < |edits| ensures RankOf(order, edits[j]) <= order[call] {
      assert edits[j] in edits;
    }
    assert Sorted(order, after[found].edits);
  }

  lemma {:induction false} WritesKeepOrder(order: Order, files: seq<Tracked>, call: CommandId, report: seq<Written>,
                                           own: seq<EditedFile>, arrived: set<Path>)
    requires InOrder(order, files) && IsLatest(order, call)
    ensures InOrder(order, AfterWrites(files, call, report, own, arrived))
  {
    if report != [] {
      var before := report[..|report| - 1];
      WritesKeepOrder(order, files, call, before, own, arrived);
      AWriteKeepsOrder(order, AfterWrites(files, call, before, own, arrived), call, report[|report| - 1], own, arrived);
    }
  }

  /** The calls are numbered one by one as they come. */
  ghost predicate NumberedInTurn(order: Order) {
    forall c :: c in order ==> order[c] < |order|
  }

  lemma {:induction false} SortedUnderMoreCalls(order: Order, call: CommandId, files: seq<Tracked>)
    requires InOrder(order, files) && call !in order
    ensures InOrder(Numbered(order, call), files)
  {
    forall k | 0 <= k < |files| ensures Sorted(Numbered(order, call), files[k].edits) {
      assert forall j :: 0 <= j < |files[k].edits| ==> files[k].edits[j] in files[k].edits;
    }
  }

  lemma {:induction false} ACallKeepsOrder(s: State, call: CommandId, report: seq<Written>, changes: seq<PathChange>,
                        own: seq<EditedFile>)
    requires InOrder(s.order, s.files) && NumberedInTurn(s.order) && call !in s.order
    ensures var after := AfterCall(s, call, report, changes, own);
            InOrder(after.order, after.files) && NumberedInTurn(after.order)
  {
    var order := Numbered(s.order, call);
    SortedUnderMoreCalls(s.order, call, s.files);
    ChangesKeepOrder(order, s.files, changes, own, {});
    var moves := AfterChanges(order, s.files, changes, own, {});
    WritesKeepOrder(order, moves.files, call, report, own, moves.arrived);
  }

  // Every run of calls.

  predicate IsAmong(id: CommandId, calls: seq<Call>) {
    calls != [] && (calls[|calls| - 1].id == id || IsAmong(id, calls[..|calls| - 1]))
  }

  lemma {:induction false} AmongTheCalls(id: CommandId, calls: seq<Call>)
    ensures IsAmong(id, calls) <==> exists k :: 0 <= k < |calls| && calls[k].id == id
  {
    if calls != [] {
      var before := calls[..|calls| - 1];
      AmongTheCalls(id, before);
      assert forall k :: 0 <= k < |before| ==> before[k] == calls[k];
    }
  }

  lemma {:induction false} OnlyTheCallsAreNumbered(calls: seq<Call>, id: CommandId)
    ensures id in Followed(calls).order ==> IsAmong(id, calls)
  {
    if calls != [] {
      OnlyTheCallsAreNumbered(calls[..|calls| - 1], id);
    }
  }

  /** After any calls of distinct commands, every file is coherent and its edits are in call order. */
  lemma {:induction false} EveryRunOfCallsKeepsTheFiles(calls: seq<Call>)
    requires forall j, k :: 0 <= j < k < |calls| ==> calls[j].id != calls[k].id
    ensures var s := Followed(calls);
            Coherent(s.files) && InOrder(s.order, s.files) && NumberedInTurn(s.order)
  {
    if calls != [] {
      var (before, last) := (calls[..|calls| - 1], calls[|calls| - 1]);
      EveryRunOfCallsKeepsTheFiles(before);
      OnlyTheCallsAreNumbered(before, last.id);
      AmongTheCalls(last.id, before);
      ACallKeepsFilesCoherent(Followed(before), last.id, last.report, last.changes, last.own);
      ACallKeepsOrder(Followed(before), last.id, last.report, last.changes, last.own);
    }
  }
}
