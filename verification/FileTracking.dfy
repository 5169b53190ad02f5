/**
 The files of a run of shell calls as a list follows them across the calls
 (crates/agent-store/src/changes.rs): through renames, removals and writes after either.
 */
module FileTracking {
  import opened Wrappers
  import opened Paths

  type CommandId = nat
  type Blob = nat

  datatype EditKind = Added | Modified | Renamed | Deleted

  /** One edit a call made of a file, with the copies kept of its contents before and after. */
  datatype Edit = Edit(copies: Option<(Blob, Blob)>, binary: bool)

  datatype EditedFile = EditedFile(path: Path, kind: EditKind, from: Option<Path>, outside: bool, edits: seq<Edit>)

  datatype FileEdit = FileEdit(call: CommandId, path: Path, segment: nat, created: bool, edit: Edit)

  datatype PathChange =
    | Removed(path: Path)
    | Moved(from: Path, target: Path)

  datatype Tracked = Tracked(path: Path, existed: bool, removed: bool, from: Option<Path>, outside: bool,
                             edits: seq<FileEdit>)
  {
    function Kind(): EditKind {
      if removed then Deleted
      else if !existed then Added
      else if from.Some? then Renamed
      else Modified
    }

    /** A removed file existed before and has no old name; a file with an old name existed before. */
    predicate IsCoherent() {
      (removed ==> existed && from.None?) && (from.Some? ==> existed)
    }
  }

  type Order = map<CommandId, nat>

  /** The calls by their command, numbered as they came, and the files as they stand after them.
      `stopped`: a rename panicked, after which nothing is added; the files are those before it. */
  datatype State = State(order: Order, files: seq<Tracked>, stopped: bool)

  /** The files after renames, the paths arrived at that no file had, and whether one panicked. */
  datatype Moves = Moves(files: seq<Tracked>, arrived: set<Path>, stopped: bool)

  ghost predicate Coherent(files: seq<Tracked>) {
    forall k :: 0 <= k < |files| ==> files[k].IsCoherent()
  }

  // Marks.

  /** The file that is the path or holds it, the longest such, and the last of those. */
  function Nearest(own: seq<EditedFile>, path: Path): (nearest: Option<EditedFile>)
    ensures nearest.Some? ==> nearest.value in own && IsWithin(path, nearest.value.path)
    ensures forall file :: file in own && IsWithin(path, file.path) ==>
                             nearest.Some? && |file.path| <= |nearest.value.path|
  {
    if own == [] then None
    else
      var last := own[|own| - 1];
      var nearest := Nearest(own[..|own| - 1], path);
      assert own == own[..|own| - 1] + [last];
      if IsWithin(path, last.path) && (nearest.None? || |nearest.value.path| <= |last.path|) then Some(last)
      else nearest
  }

  predicate Marked(own: seq<EditedFile>, path: Path) {
    var nearest := Nearest(own, path);
    nearest.Some? && nearest.value.outside
  }

  // A removal.

  function RemovedFile(file: Tracked, outside: bool): Tracked {
    Tracked(if file.from.Some? then file.from.value else file.path, file.existed, true, None, outside, file.edits)
  }

  /** The files without those of `path`: a file the list made leaves no trace, and an older one is shown
      deleted under its first name. */
  function RemovedIn(files: seq<Tracked>, path: Path, outside: bool): (kept: seq<Tracked>) {
    if files == [] then []
    else
      var last := files[|files| - 1];
      var before := RemovedIn(files[..|files| - 1], path, outside);
      if !IsWithin(last.path, path) then before + [last]
      else if !last.existed then before
      else before + [RemovedFile(last, outside)]
  }

  predicate HoldsWithin(files: seq<Tracked>, path: Path) {
    exists k :: 0 <= k < |files| && IsWithin(files[k].path, path)
  }

  function AfterRemoval(files: seq<Tracked>, path: Path, own: seq<EditedFile>): seq<Tracked> {
    var outside := Marked(own, Stripped(path));
    RemovedIn(files, path, outside)
    + if HoldsWithin(files, path) then [] else [Tracked(Stripped(path), true, true, None, outside, [])]
  }

  // A rename.

  /** The files a rename of `from` moves, ascending. */
  function MovedBy(files: seq<Tracked>, from: Path): (moved: seq<nat>)
    ensures forall k :: 0 <= k < |moved| ==>
                          moved[k] < |files| && !files[moved[k]].removed && IsWithin(files[moved[k]].path, from)
    ensures forall j, k :: 0 <= j < k < |moved| ==> moved[j] < moved[k]
    ensures forall at: nat :: at < |files| && !files[at].removed && IsWithin(files[at].path, from) ==> at in moved
  {
    if files == [] then []
    else
      var at := |files| - 1;
      var before := MovedBy(files[..at], from);
      if !files[at].removed && IsWithin(files[at].path, from) then before + [at] else before
  }

  /** The first file at `path`, or their number when none is. */
  function FirstAt(files: seq<Tracked>, path: Path): (at: nat)
    ensures at <= |files|
    ensures at < |files| ==> files[at].path == path
    ensures forall k :: 0 <= k < at ==> files[k].path != path
  {
    if files == [] || files[0].path == path then 0 else 1 + FirstAt(files[1..], path)
  }

  function RankOf(order: Order, edit: FileEdit): nat {
    if edit.call in order then order[edit.call] else 0
  }

  /** `edit` after the edits of its call and the calls before it. */
  function Placed(order: Order, sorted: seq<FileEdit>, edit: FileEdit): (r: seq<FileEdit>) {
    if sorted == [] || RankOf(order, sorted[|sorted| - 1]) <= RankOf(order, edit) then sorted + [edit]
    else Placed(order, sorted[..|sorted| - 1], edit) + [sorted[|sorted| - 1]]
  }

  /** The edits by their calls' order, those of one call as they were. */
  function InCallOrder(order: Order, edits: seq<FileEdit>): (sorted: seq<FileEdit>) {
    if edits == [] then []
    else Placed(order, InCallOrder(order, edits[..|edits| - 1]), edits[|edits| - 1])
  }

  /** `kept` with the edits of the file it replaces or is replaced by, each call's in their order. */
  function MergedFile(order: Order, kept: Tracked, moving: Tracked, outside: bool): Tracked {
    kept.(edits := InCallOrder(order, kept.edits + moving.edits), removed := false, outside := outside)
  }

  function Without(files: seq<Tracked>, at: nat): (r: seq<Tracked>)
    requires at < |files|
    ensures |r| == |files| - 1
    ensures forall k :: 0 <= k < |r| ==> r[k] == files[if k < at then k else k + 1]
  {
    files[..at] + files[at + 1..]
  }

  /** The files with the one at `at` merged into the one at `target`, in the earlier place of the two. */
  function MergedInto(order: Order, files: seq<Tracked>, at: nat, target: nat, outside: bool): (r: seq<Tracked>)
    requires at < |files| && target < |files| && (at == target ==> at + 1 < |files|)
    ensures |r| == |files| - 1
    ensures at != target ==> forall k :: 0 <= k < at ==> r[k].path == files[k].path
  {
    var (first, last) := if at < target then (at, target) else (target, at);
    Without(files, last)[first := MergedFile(order, files[target], files[at], outside)]
  }

  /** The files with the one at `at` renamed to `path`, which none of them has. */
  function RenamedAt(files: seq<Tracked>, at: nat, path: Path, outside: bool): (r: seq<Tracked>)
    requires at < |files|
    ensures |r| == |files| && forall k :: 0 <= k < at ==> r[k] == files[k]
  {
    var file := files[at];
    var original := if file.from.Some? then file.from.value else file.path;
    var from := if file.existed then (if original != path then Some(original) else None) else file.from;
    files[at := file.(path := path, from := from, outside := outside)]
  }

  /** The new name of a file that a rename moves: what follows the old path's length, after the new path.
      None when the file's own path is shorter, or is cut within a character. */
  function NewPath(was: Path, from: Path, target: Path): Option<Path> {
    var length := |Stripped(from)|;
    if length <= |was| && IsBoundary(was, length) then Some(target + was[length..]) else None
  }

  /** Whether `moved` are positions of files, ascending. */
  ghost predicate CanMove(files: seq<Tracked>, moved: seq<nat>) {
    && (forall k :: 0 <= k < |moved| ==> moved[k] < |files|)
    && (forall j, k :: 0 <= j < k < |moved| ==> moved[j] < moved[k])
  }

  /** Whether the file at `at` would be merged into itself with no file after it to take its place. */
  predicate MergesPastTheEnd(files: seq<Tracked>, at: nat, found: nat) {
    found == at && at + 1 == |files|
  }

  /** The rename of the file at `at`. */
  function MovedOne(order: Order, files: seq<Tracked>, at: nat, from: Path, target: Path, own: seq<EditedFile>,
                    arrived: set<Path>): (r: Moves)
    requires at < |files|
    ensures at <= |r.files| <= |files|
    ensures forall k :: 0 <= k < at ==> r.files[k].path == files[k].path
  {
    match NewPath(files[at].path, from, target)
    case None => Moves(files, arrived, true)
    case Some(path) =>
      var found := FirstAt(files, path);
      if found == |files| then Moves(RenamedAt(files, at, path, Marked(own, path)), arrived + {path}, false)
      else if MergesPastTheEnd(files, at, found) then Moves(files, arrived, true)
      else Moves(MergedInto(order, files, at, found, Marked(own, path)), arrived, false)
  }

  /** The renames of the files at `moved`, later positions first. */
  function MovedEach(order: Order, files: seq<Tracked>, moved: seq<nat>, from: Path, target: Path,
                     own: seq<EditedFile>, arrived: set<Path>): (r: Moves)
    requires CanMove(files, moved)
    decreases |moved|
  {
    if moved == [] then Moves(files, arrived, false)
    else
      var one := MovedOne(order, files, moved[|moved| - 1], from, target, own, arrived);
      if one.stopped then one
      else MovedEach(order, one.files, moved[..|moved| - 1], from, target, own, one.arrived)
  }

  function AfterRename(order: Order, files: seq<Tracked>, from: Path, target: Path, own: seq<EditedFile>,
                       arrived: set<Path>): (r: Moves)
  {
    var moved := MovedBy(files, from);
    if moved != [] then MovedEach(order, files, moved, from, target, own, arrived)
    else if FirstAt(files, target) < |files| then Moves(files, arrived, false)
    else Moves(files + [Tracked(target, true, false, Some(from), Marked(own, target), [])], arrived + {target}, false)
  }

  // A call.

  /** What a call's job wrote of a file: its edits, and whether it was there before. */
  datatype Written = Written(path: Path, modified: bool, edits: seq<Edit>)

  function AfterChanges(order: Order, files: seq<Tracked>, changes: seq<PathChange>, own: seq<EditedFile>,
                        arrived: set<Path>): (r: Moves)
    decreases |changes|
  {
    if changes == [] then Moves(files, arrived, false)
    else
      match changes[0]
      case Removed(path) => AfterChanges(order, AfterRemoval(files, path, own), changes[1..], own, arrived)
      case Moved(from, target) =>
        var renamed := AfterRename(order, files, from, target, own, arrived);
        if renamed.stopped then renamed
        else AfterChanges(order, renamed.files, changes[1..], own, renamed.arrived)
  }

  function NewEdits(call: CommandId, file: Written): (r: seq<FileEdit>)
    ensures |r| == |file.edits| && forall k :: 0 <= k < |r| ==> r[k].call == call
  {
    seq(|file.edits|, segment requires 0 <= segment < |file.edits| =>
      FileEdit(call, file.path, segment, !file.modified && segment == 0, file.edits[segment]))
  }

  function AfterWrite(files: seq<Tracked>, call: CommandId, file: Written, own: seq<EditedFile>,
                      arrived: set<Path>): (r: seq<Tracked>)
  {
    var found := FirstAt(files, file.path);
    var files := if found < |files| then files
                 else files + [Tracked(file.path, file.modified, false, None, false, [])];
    var tracked := files[found];
    var replaced := file.path in arrived && file.modified;
    files[found := Tracked(tracked.path,
                           replaced || tracked.existed,
                           false,
                           if replaced then None else tracked.from,
                           Marked(own, file.path),
                           tracked.edits + NewEdits(call, file))]
  }

  function AfterWrites(files: seq<Tracked>, call: CommandId, report: seq<Written>, own: seq<EditedFile>,
                       arrived: set<Path>): (r: seq<Tracked>)
  {
    if report == [] then files
    else
      AfterWrite(AfterWrites(files, call, report[..|report| - 1], own, arrived), call, report[|report| - 1], own, arrived)
  }

  function Numbered(order: Order, call: CommandId): Order {
    if call in order then order else order[call := |order|]
  }

  /** The files after a call: each of its changes moves or drops some, and what it wrote joins last. */
  function AfterCall(s: State, call: CommandId, report: seq<Written>, changes: seq<PathChange>,
                     own: seq<EditedFile>): State
  {
    if s.stopped then s
    else
      var order := Numbered(s.order, call);
      var moves := AfterChanges(order, s.files, changes, own, {});
      State(order,
            if moves.stopped then moves.files else AfterWrites(moves.files, call, report, own, moves.arrived),
            moves.stopped)
  }

  // A run of calls.

  datatype Call = Call(id: CommandId, report: seq<Written>, changes: seq<PathChange>, own: seq<EditedFile>)

  function Followed(calls: seq<Call>): State {
    if calls == [] then State(map[], [], false)
    else
      var last := calls[|calls| - 1];
      AfterCall(Followed(calls[..|calls| - 1]), last.id, last.report, last.changes, last.own)
  }

  /** A file as a list shows it; its line counts are not part of this model. */
  datatype ChangedFile = ChangedFile(path: Path, kind: EditKind, from: Option<Path>, edits: seq<FileEdit>)

  /** The files not outside, as they stand. */
  function Listed(files: seq<Tracked>): (listed: seq<ChangedFile>) {
    if files == [] then []
    else
      var (before, last) := (Listed(files[..|files| - 1]), files[|files| - 1]);
      if last.outside then before else before + [ChangedFile(last.path, last.Kind(), last.from, last.edits)]
  }
}
