/**
 Every run of the save protocol (crates/agent-session/src/core.rs, persist.rs, window.rs): the
 transcript changes at any time, a save or a rewrite of the history is in flight at most one at a
 time, and the store takes or refuses each.
 */
module SaveRuns {
  import opened Wrappers
  import opened Blocks
  import opened Versions
  import opened TreeStore
  import opened TreeBranches
  import opened TreeSwitch
  import opened DirtyRows
  import opened SaveProtocol

  /** What a session holds of its path: `blocks` from its window's start on. Those `before` it are
      let go and read from the store when needed. */
  datatype Session = Session(before: seq<Block>, blocks: seq<Block>, dirty: bool, rows: Marks) {

    function Start(): nat { |before| }

    function Path(): seq<Block> { before + blocks }

    /** A marked row is in the window, and makes a save due. */
    ghost predicate Valid() {
      && rows.Valid() && AllFrom(rows, Start())
      && (!dirty ==> rows == CLEAN)
    }
  }

  // Changes of the transcript.

  datatype LogChange =
    | Appends(block: Block)
    | Inserts(at: nat, block: Block)
    | Withdraws(at: nat)
    | Rewrites(at: nat, block: Block)

  predicate Fits(s: Session, c: LogChange) {
    match c
    case Inserts(at, _) => s.Start() <= at <= |s.Path()|
    case Rewrites(at, _) => s.Start() <= at < |s.Path()|
    case _ => true
  }

  function Changed(s: Session, c: LogChange): Session
    requires s.rows.Valid() && Fits(s, c)
  {
    var start := s.Start();
    match c
    case Appends(block) =>
      s.(blocks := s.blocks + [block], dirty := true, rows := s.rows.MoveFrom(|s.Path()|))
    case Inserts(at, block) =>
      s.(blocks := s.blocks[..at - start] + [block] + s.blocks[at - start..],
         dirty := true, rows := s.rows.MoveFrom(at))
    case Withdraws(at) =>
      if at < start || at >= |s.Path()| then s
      else s.(blocks := s.blocks[..at - start], dirty := true, rows := s.rows.MoveFrom(at))
    case Rewrites(at, block) =>
      s.(blocks := s.blocks[at - start := block], dirty := true, rows := s.rows.Change(at))
  }

  // The steps of a save.

  function SaveOf(path: seq<Block>, marks: Marks): Update {
    Update(ChangesAt(path, marks.Indices(0, |path|)), |path|, marks.floor, false)
  }

  function Taken(s: Session): Session {
    s.(dirty := false, rows := CLEAN)
  }

  function Restored(s: Session, rows: Marks): Session
    requires s.rows.Valid() && rows.Valid()
  {
    s.(dirty := true, rows := s.rows.Merge(rows))
  }

  /** Where the last boundary among the blocks stands. */
  function LastBoundary(blocks: seq<Block>): (at: nat)
    ensures at <= |blocks|
    ensures |blocks| > 0 ==> at < |blocks|
    ensures at > 0 ==> blocks[at].body.CompactionBoundary?
    ensures forall i :: at < i < |blocks| ==> !blocks[i].body.CompactionBoundary?
  {
    if blocks == [] then 0
    else if blocks[|blocks| - 1].body.CompactionBoundary? then |blocks| - 1
    else LastBoundary(blocks[..|blocks| - 1])
  }

  /** The window starts at the last boundary, when no row before it waits for a save. */
  function Settled(s: Session): Session {
    var at := LastBoundary(s.blocks);
    if SomeBelow(s.rows, s.Start() + at) then s
    else s.(before := s.before + s.blocks[..at], blocks := s.blocks[at..])
  }

  // A rewrite of the history.

  /** How many blocks two histories share from the start. */
  function Kept(a: seq<Block>, b: seq<Block>): (kept: nat)
    ensures kept <= |a| && kept <= |b| && a[..kept] == b[..kept]
    ensures kept < |a| && kept < |b| ==> a[kept] != b[kept]
  {
    if a == [] || b == [] || a[0] != b[0] then 0 else 1 + Kept(a[1..], b[1..])
  }

  /** Where a rewrite writes new rows from: where the histories part, or a row added before that and
      not saved yet. */
  function RewrittenFrom(s: Session, blocks: seq<Block>): (from: nat)
    ensures s.rows.floor.Some? ==> from <= s.rows.floor.value
    ensures from <= s.Start() + Kept(s.blocks, blocks)
  {
    var kept := s.Start() + Kept(s.blocks, blocks);
    if s.rows.floor.Some? then Min(s.rows.floor.value, kept) else kept
  }

  function Range(from: nat, end: nat): (r: seq<nat>)
    requires from <= end
    ensures |r| == end - from && forall k :: 0 <= k < |r| ==> r[k] == from + k
    ensures forall i: nat :: i in r <==> from <= i < end
    decreases end - from
  {
    if from == end then [] else [from] + Range(from + 1, end)
  }

  /** The rows a rewrite writes: those changed in place before it, and every row from it on. */
  function RewrittenRows(s: Session, blocks: seq<Block>): (indices: seq<nat>)
    requires s.Valid()
    ensures forall k :: 0 <= k < |indices| ==> s.Start() <= indices[k] < s.Start() + |blocks|
  {
    var from := RewrittenFrom(s, blocks);
    RewritesInTheWindow(s, blocks);
    s.rows.Indices(0, from) + Range(from, s.Start() + |blocks|)
  }

  lemma {:induction false} RewritesInTheWindow(s: Session, blocks: seq<Block>)
    requires s.Valid()
    ensures s.Start() <= RewrittenFrom(s, blocks)
    ensures forall k :: 0 <= k < |s.rows.Indices(0, RewrittenFrom(s, blocks))| ==>
                          s.Start() <= s.rows.Indices(0, RewrittenFrom(s, blocks))[k]
  {
    if s.rows.floor.Some? { assert s.rows.Has(s.rows.floor.value); }
    var indices := s.rows.Indices(0, RewrittenFrom(s, blocks));
    forall k | 0 <= k < |indices| ensures s.Start() <= indices[k] {
      assert indices[k] in indices;
    }
  }

  /** The save of the history whose window is `blocks`. */
  function RewriteOf(s: Session, blocks: seq<Block>, version: bool): Update
    requires s.Valid()
  {
    var target := s.before + blocks;
    Update(ChangesAt(target, RewrittenRows(s, blocks)), |target|, Some(RewrittenFrom(s, blocks)), version)
  }

  function Adopted(s: Session, blocks: seq<Block>): Session {
    s.(blocks := blocks, rows := CLEAN)
  }

  /** The window reaches back to `from`, with the blocks the store has there. */
  function Reached(s: Session, stored: seq<Block>, from: nat): Session
    requires from <= s.Start() <= |stored|
  {
    s.(before := s.before[..from], blocks := stored[from..s.Start()] + s.blocks)
  }

  /** The path a switch made current from `from` on: `stored` is the store's now. A change before the
      window starts it anew at `held`. */
  function SwitchAdopted(s: Session, stored: seq<Block>, from: nat, held: nat): Session
    requires from <= |stored|
    requires s.Start() <= from ==> from <= |s.Path()|
    requires from < s.Start() ==> held <= from
  {
    var clean := s.(rows := CLEAN);
    if s.Start() <= from
    then clean.(blocks := s.blocks[..from - s.Start()] + stored[from..])
    else clean.(before := s.before[..held], blocks := stored[held..])
  }

  // A run.

  /** The save the store is at: one of the rows `rows` of the path `taken`, or a rewrite's. */
  datatype Flight =
    | Grounded
    | Saving(update: Update, rows: Marks, taken: seq<Block>)
    | Rewriting(update: Update, blocks: seq<Block>)

  datatype World = World(session: Session, store: Node, flight: Flight)

  datatype Event =
    | ChangeLog(change: LogChange)
    | ChangeState
    | BeginSave
    | EndSave(taken: bool)
    | BeginRewrite(blocks: seq<Block>, version: bool)
    | EndRewrite(taken: bool)
    | Reach(from: nat)
    | SwitchVersion(position: nat, to: nat, held: nat)

  /** The store takes the update and its path is then `path`. */
  ghost predicate Makes(n: Node, u: Update, path: seq<Block>) {
    Shape(n) && Saved(n, u).1.None? && PathBlocks(Saved(n, u).0) == path
  }

  /** Every unmarked row is stored as it is, and a save in flight is one the store takes. */
  ghost predicate Sound(w: World) {
    && w.session.Valid() && Shape(w.store)
    && (match w.flight
        case Grounded => Agrees(PathBlocks(w.store), w.session.Path(), w.session.rows)
        case Saving(update, rows, taken) =>
          && rows.Valid() && AllFrom(rows, w.session.Start())
          && Agrees(PathBlocks(w.store), taken, rows)
          && Agrees(taken, w.session.Path(), w.session.rows)
          && Makes(w.store, update, taken)
        case Rewriting(update, blocks) =>
          && Agrees(PathBlocks(w.store), w.session.Path(), w.session.rows)
          && Makes(w.store, update, w.session.before + blocks))
  }

  /** The marks of the rows that are not known to be stored. */
  function Unsaved(w: World): Marks
    requires w.session.rows.Valid() && (w.flight.Saving? ==> w.flight.rows.Valid())
  {
    if w.flight.Saving? then w.session.rows.Merge(w.flight.rows) else w.session.rows
  }

  /** Where a path changed from `from` on can be adopted: the window holds the place, or starts anew. */
  ghost predicate Lands(s: Session, from: nat, held: nat) {
    if s.Start() <= from then from <= |s.Path()| else held <= from
  }

  /** The store made `store`'s path current, changed from `from` on, and the session adopts it. */
  function SwitchTaken(w: World, store: Node, from: nat, held: nat): World
    requires Shape(store) && from <= |PathBlocks(store)| && Lands(w.session, from, held)
  {
    w.(store := store, session := SwitchAdopted(w.session, PathBlocks(store), from, held))
  }

  /** Each row the session keeps of its window is stored as it is, marked or not. */
  ghost predicate KeepsStoredRows(w: World, from: nat)
    requires Shape(w.store)
  {
    w.session.Start() <= from ==>
      forall i: nat {:trigger w.session.rows.Has(i)} ::
        i < from && i < |w.session.Path()| && w.session.rows.Has(i) ==>
                         i < |PathBlocks(w.store)| && w.session.Path()[i] == PathBlocks(w.store)[i]
  }

  ghost predicate MaySwitch(w: World, position: nat, to: nat, held: nat)
    requires Shape(w.store)
  {
    && w.flight.Grounded? && Switched(w.store, position, to).Ok?
    && Lands(w.session, Switched(w.store, position, to).value.1, held)
  }

  function SwitchMade(w: World, position: nat, to: nat, held: nat): World
    requires Shape(w.store) && MaySwitch(w, position, to, held)
  {
    ASwitchKeepsTheBlocksBefore(w.store, position, to);
    var (store, from) := Switched(w.store, position, to).value;
    SwitchTaken(w, store, from, held)
  }

  /** When an event may come. The save order admits one save, rewrite, reach or switch at a time. A
      switch comes when no row it keeps was changed in place since it was saved: exactly then adopting
      it loses no mark. */
  ghost predicate Enabled(w: World, e: Event)
    requires Sound(w)
  {
    match e
    case ChangeLog(change) => Fits(w.session, change)
    case ChangeState => true
    case BeginSave => w.flight.Grounded?
    case EndSave(_) => w.flight.Saving?
    case BeginRewrite(_, _) => w.flight.Grounded?
    case EndRewrite(_) => w.flight.Rewriting?
    case Reach(from) => w.flight.Grounded? && from <= w.session.Start()
    case SwitchVersion(position, to, held) =>
      MaySwitch(w, position, to, held) && KeepsStoredRows(w, Switched(w.store, position, to).value.1)
  }

  function LogChanged(w: World, c: LogChange): World
    requires w.session.rows.Valid() && Fits(w.session, c)
  {
    w.(session := Changed(w.session, c))
  }

  function ReachMade(w: World, from: nat): World
    requires Shape(w.store) && from <= w.session.Start() <= |PathBlocks(w.store)|
  {
    w.(session := Reached(w.session, PathBlocks(w.store), from))
  }

  function RewriteBegun(w: World, blocks: seq<Block>, version: bool): World
    requires w.session.Valid()
  {
    w.(flight := Rewriting(RewriteOf(w.session, blocks, version), blocks))
  }

  function SaveBegun(w: World): World {
    var s := w.session;
    w.(session := Taken(s), flight := Flight.Saving(SaveOf(s.Path(), s.rows), s.rows, s.Path()))
  }

  /** The store takes the save in flight. */
  function SaveTaken(w: World): World
    requires Shape(w.store) && w.flight.Saving?
  {
    World(Settled(w.session), Saved(w.store, w.flight.update).0, Grounded)
  }

  /** The save in flight fails, having changed nothing. */
  function SaveFailed(w: World): World
    requires w.flight.Saving? && w.flight.rows.Valid() && w.session.rows.Valid()
  {
    w.(session := Restored(w.session, w.flight.rows), flight := Grounded)
  }

  function RewriteTaken(w: World): World
    requires Shape(w.store) && w.flight.Rewriting?
  {
    World(Adopted(w.session, w.flight.blocks), Saved(w.store, w.flight.update).0, Grounded)
  }

  function SaveEnded(w: World, taken: bool): World
    requires Shape(w.store) && w.flight.Saving? && w.flight.rows.Valid() && w.session.rows.Valid()
  {
    if taken then SaveTaken(w) else SaveFailed(w)
  }

  function RewriteEnded(w: World, taken: bool): World
    requires Shape(w.store) && w.flight.Rewriting?
  {
    if taken then RewriteTaken(w) else w.(flight := Grounded)
  }

  function Next(w: World, e: Event): World
    requires Sound(w) && Enabled(w, e)
  {
    match e
    case ChangeLog(change) => LogChanged(w, change)
    case ChangeState => w.(session := w.session.(dirty := true))
    case BeginSave =>
      if w.session.dirty then SaveBegun(w) else w.(session := Settled(w.session))
    case EndSave(taken) => SaveEnded(w, taken)
    case BeginRewrite(blocks, version) =>
      RewriteBegun(w, blocks, version)
    case EndRewrite(taken) => RewriteEnded(w, taken)
    case Reach(from) => AWindowedPathIsStored(w); ReachMade(w, from)
    case SwitchVersion(position, to, held) =>
      SwitchMade(w, position, to, held)
  }

  lemma {:induction false} AWindowedPathIsStored(w: World)
    requires Sound(w) && w.flight.Grounded?
    ensures w.session.Start() <= |PathBlocks(w.store)|
    ensures PathBlocks(w.store)[..w.session.Start()] == w.session.before
  {
    UnmarkedIsStored(PathBlocks(w.store), w.session.Path(), w.session.rows, w.session.Start());
    assert w.session.Path()[..w.session.Start()] == w.session.before;
  }

  /** Rows before every mark are stored as they are. */
  lemma {:induction false} UnmarkedIsStored(stored: seq<Block>, path: seq<Block>, rows: Marks, from: nat)
    requires Agrees(stored, path, rows) && AllFrom(rows, from) && from <= |path|
    ensures from <= |stored| && stored[..from] == path[..from]
  {
    if rows.floor.Some? { assert rows.Has(rows.floor.value); }
    forall i | 0 <= i < from ensures stored[i] == path[i] {
      assert !rows.Has(i);
    }
  }

  lemma {:induction false} ASwitchKeepsTheBlocksBefore(n: Node, position: nat, to: nat)
    requires Shape(n) && Switched(n, position, to).Ok?
    ensures var (after, from) := Switched(n, position, to).value;
            && Shape(after) && from <= |PathBlocks(n)| && from <= |PathBlocks(after)|
            && PathBlocks(after)[..from] == PathBlocks(n)[..from]
  {
    SwitchKeepsTheShape(n, position, to);
    ASwitchKeepsThePathBefore(n, position, to);
    var (after, from) := Switched(n, position, to).value;
    SamePrefixSameBlocks(n, after, from);
  }

  lemma {:induction false} SamePrefixSameBlocks(a: Node, b: Node, from: nat)
    requires Shape(a) && Shape(b) && a.rows == b.rows && from <= |a.path| && from <= |b.path|
    requires a.path[..from] == b.path[..from]
    ensures PathBlocks(a)[..from] == PathBlocks(b)[..from]
  {
    forall k | 0 <= k < from ensures PathBlocks(a)[k] == PathBlocks(b)[k] {
      assert a.path[..from][k] == b.path[..from][k];
    }
  }

  // Each step keeps every unmarked row stored.

  lemma {:induction false} AChangeIsSound(w: World, c: LogChange)
    requires Sound(w) && Fits(w.session, c)
    ensures Sound(LogChanged(w, c))
  {
    var s := w.session;
    var t := Changed(s, c);
    ChangedPath(s, c);
    var was := if w.flight.Saving? then w.flight.taken else PathBlocks(w.store);
    match c {
      case Appends(block) => AnAppendAgrees(was, s.Path(), s.rows, block);
      case Inserts(at, block) => AnInsertAgrees(was, s.Path(), s.rows, at, block);
      case Withdraws(at) =>
        if s.Start() <= at < |s.Path()| { ACutAgrees(was, s.Path(), s.rows, at); }
      case Rewrites(at, block) => AChangeAgrees(was, s.Path(), s.rows, at, block);
    }
  }

  lemma {:induction false} ChangedPath(s: Session, c: LogChange)
    requires s.Valid() && Fits(s, c)
    ensures Changed(s, c).Valid()
    ensures
      var path := s.Path();
      Changed(s, c).Path() ==
      match c
      case Appends(block) => path + [block]
      case Inserts(at, block) => path[..at] + [block] + path[at..]
      case Withdraws(at) => if s.Start() <= at < |path| then path[..at] else path
      case Rewrites(at, block) => path[at := block]
  {
  }

  lemma {:induction false} ASettledSessionIsSound(w: World)
    requires Sound(w) && w.flight.Grounded?
    ensures Sound(w.(session := Settled(w.session))) && Settled(w.session).Path() == w.session.Path()
  {
    var s := w.session;
    var at := LastBoundary(s.blocks);
    SomeBelowExactlyWhenNotAllFrom(s.rows, s.Start() + at);
    assert s.before + s.blocks[..at] + s.blocks[at..] == s.Path();
  }

  /** The window holds every row a save writes. */
  lemma {:induction false} TheWindowHoldsEveryRowASaveWrites(s: Session)
    requires s.Valid()
    ensures forall k :: 0 <= k < |SaveOf(s.Path(), s.rows).changed| ==>
                          var c := SaveOf(s.Path(), s.rows).changed[k];
                          s.Start() <= c.position < |s.Path()| && c.block == s.blocks[c.position - s.Start()]
  {
    var indices := s.rows.Indices(0, |s.Path()|);
    forall k | 0 <= k < |indices| ensures s.Start() <= indices[k] {
      assert indices[k] in indices;
    }
  }

  /** The save of a path whose unmarked rows are stored makes it the stored path. */
  lemma {:induction false} ASaveMakesThePath(n: Node, path: seq<Block>, rows: Marks)
    requires Shape(n) && Agrees(PathBlocks(n), path, rows)
    ensures Makes(n, SaveOf(path, rows), path)
  {
    var u := SaveOf(path, rows);
    var indices := rows.Indices(0, |path|);
    forall i: nat | i < |path| && i !in indices ensures i < CutAt(n, u) && PathBlocks(n)[i] == path[i] {
      assert !rows.Has(i);
    }
    AWholeSaveIsTaken(n, path, indices, u);
  }

  /** A history rewrite's save makes its blocks the stored path, with the rows before them. */
  lemma {:induction false} ARewriteMakesItsPath(n: Node, s: Session, blocks: seq<Block>, version: bool)
    requires Shape(n) && s.Valid() && Agrees(PathBlocks(n), s.Path(), s.rows)
    ensures Makes(n, RewriteOf(s, blocks, version), s.before + blocks)
  {
    var from := RewrittenFrom(s, blocks);
    var target := s.before + blocks;
    var u := RewriteOf(s, blocks, version);
    var below := s.rows.Indices(0, from);
    var indices := RewrittenRows(s, blocks);
    assert indices == below + Range(from, |target|);
    forall i: nat | i < |target| && i !in indices ensures i < from && i < |PathBlocks(n)| && PathBlocks(n)[i] == target[i] {
      assert i !in below && i !in Range(from, |target|);
      assert !s.rows.Has(i);
      ARewriteKeepsWhatIsBeforeIt(s, blocks, i);
    }
    ARewriteCutsInThePath(n, s, blocks, version);
    AWholeSaveIsTaken(n, target, indices, u);
  }

  lemma {:induction false} ARewriteKeepsWhatIsBeforeIt(s: Session, blocks: seq<Block>, i: nat)
    requires i < RewrittenFrom(s, blocks)
    ensures i < |s.Path()| && (s.before + blocks)[i] == s.Path()[i]
  {
    var kept := Kept(s.blocks, blocks);
    if i >= s.Start() {
      assert s.blocks[..kept][i - s.Start()] == blocks[..kept][i - s.Start()];
    }
  }

  lemma {:induction false} ARewriteCutsInThePath(n: Node, s: Session, blocks: seq<Block>, version: bool)
    requires Shape(n) && s.Valid() && Agrees(PathBlocks(n), s.Path(), s.rows)
    ensures CutAt(n, RewriteOf(s, blocks, version)) == RewrittenFrom(s, blocks)
  {
  }

  lemma {:induction false} ASaveBegunIsSound(w: World)
    requires Sound(w) && w.flight.Grounded?
    ensures Sound(SaveBegun(w))
  {
    ASaveMakesThePath(w.store, w.session.Path(), w.session.rows);
    assert Taken(w.session).Path() == w.session.Path();
  }

  lemma {:induction false} ARewriteBegunIsSound(w: World, blocks: seq<Block>, version: bool)
    requires Sound(w) && w.flight.Grounded?
    ensures Sound(RewriteBegun(w, blocks, version))
  {
    ARewriteMakesItsPath(w.store, w.session, blocks, version);
  }

  lemma {:induction false} ATakenSaveIsSound(w: World)
    requires Sound(w) && w.flight.Saving?
    ensures Sound(SaveTaken(w)) && SaveTaken(w).session.Path() == w.session.Path()
  {
    var saved := World(w.session, Saved(w.store, w.flight.update).0, Grounded);
    ASettledSessionIsSound(saved);
  }

  /** A save that is taken with no change meanwhile leaves nothing due: the stored path is the transcript, no row is
      marked, and the window starts at the last boundary. */
  lemma {:induction false} ASaveLeavesNothingDue(w: World)
    requires Sound(w) && w.flight.Grounded? && w.session.dirty
    ensures var done := SaveTaken(SaveBegun(w));
            && !done.session.dirty && done.session.rows == CLEAN && done.session.Path() == w.session.Path()
            && Shape(done.store) && PathBlocks(done.store) == w.session.Path()
            && done.session.Start() == w.session.Start() + LastBoundary(w.session.blocks)
  {
    ASaveBegunIsSound(w);
    ATakenSaveIsSound(SaveBegun(w));
    NothingMarkedIsStored(SaveTaken(SaveBegun(w)));
  }

  lemma {:induction false} NothingMarkedIsStored(w: World)
    requires Sound(w) && w.flight.Grounded? && w.session.rows == CLEAN
    ensures PathBlocks(w.store) == w.session.Path()
  {
    var (stored, path) := (PathBlocks(w.store), w.session.Path());
    forall i: nat | i < |stored| ensures stored[i] == path[i] { assert !w.session.rows.Has(i); }
  }

  /** A failed save loses no mark, also when rows changed while it ran. */
  lemma {:induction false} AFailedSaveIsSound(w: World)
    requires Sound(w) && w.flight.Saving?
    ensures Sound(SaveFailed(w)) && SaveFailed(w).session.Path() == w.session.Path()
    ensures forall i: nat :: SaveFailed(w).session.rows.Has(i) <==> w.session.rows.Has(i) || w.flight.rows.Has(i)
  {
    MoreMarksAgree(PathBlocks(w.store), w.flight.taken, w.session.Path(), w.flight.rows, w.session.rows);
  }

  lemma {:induction false} ATakenRewriteIsSound(w: World)
    requires Sound(w) && w.flight.Rewriting?
    ensures Sound(RewriteTaken(w)) && RewriteTaken(w).session.Path() == w.session.before + w.flight.blocks
    ensures PathBlocks(RewriteTaken(w).store) == RewriteTaken(w).session.Path()
  {
  }

  lemma {:induction false} ReachingIsSound(w: World, from: nat)
    requires Sound(w) && w.flight.Grounded? && from <= w.session.Start()
    ensures w.session.Start() <= |PathBlocks(w.store)|
    ensures Sound(ReachMade(w, from)) && ReachMade(w, from).session.Path() == w.session.Path()
  {
    AWindowedPathIsStored(w);
    var stored := PathBlocks(w.store);
    assert stored[from..w.session.Start()] == w.session.before[from..];
    assert w.session.before[..from] + (w.session.before[from..] + w.session.blocks) == w.session.Path();
  }

  /** A reach holds every block from there on. */
  lemma {:induction false} AReachHoldsTheRest(w: World, from: nat)
    requires Sound(w) && w.flight.Grounded? && from <= w.session.Start()
    ensures w.session.Start() <= |PathBlocks(w.store)|
    ensures var s := ReachMade(w, from).session;
            s.Start() == from && s.blocks == w.session.Path()[from..]
  {
    AWindowedPathIsStored(w);
    assert w.session.Path()[from..] == w.session.before[from..] + w.session.blocks;
    assert PathBlocks(w.store)[from..w.session.Start()] == w.session.before[from..];
  }

  /** What a session adopts of a path the store has now: all of it, but for what it keeps of its window. */
  lemma {:induction false} AnAdoptedPath(s: Session, stored: seq<Block>, from: nat, held: nat)
    requires from <= |stored| && Lands(s, from, held)
    requires stored[..Min(s.Start(), from)] == s.before[..Min(s.Start(), from)]
    ensures SwitchAdopted(s, stored, from, held).Path()
            == if s.Start() <= from then s.Path()[..from] + stored[from..] else stored
  {
    if from < s.Start() {
      assert s.before[..held] == s.before[..from][..held] == stored[..from][..held] == stored[..held];
      assert stored == stored[..held] + stored[held..];
    }
  }

  /** The store changed its path from `from` on only. */
  ghost predicate ChangesFrom(was: Node, store: Node, from: nat) {
    && Shape(was) && Shape(store) && from <= |PathBlocks(was)| && from <= |PathBlocks(store)|
    && PathBlocks(store)[..from] == PathBlocks(was)[..from]
  }

  lemma {:induction false} TheWindowStartsInTheStore(w: World, store: Node, from: nat)
    requires Sound(w) && w.flight.Grounded? && ChangesFrom(w.store, store, from)
    ensures var s := w.session;
            PathBlocks(store)[..Min(s.Start(), from)] == s.before[..Min(s.Start(), from)]
  {
    AWindowedPathIsStored(w);
    var (s, was, stored) := (w.session, PathBlocks(w.store), PathBlocks(store));
    var least := Min(s.Start(), from);
    assert stored[..least] == stored[..from][..least] == was[..from][..least] == was[..least];
    assert was[..least] == was[..s.Start()][..least] == s.before[..least];
  }

  /** The rows before `from` are stored as they are exactly when the marked ones are. */
  lemma {:induction false} StoredBelowExactlyWhen(w: World, from: nat)
    requires Sound(w) && w.flight.Grounded? && w.session.Start() <= from
    requires from <= |w.session.Path()| && from <= |PathBlocks(w.store)|
    ensures KeepsStoredRows(w, from) <==> w.session.Path()[..from] == PathBlocks(w.store)[..from]
  {
    var (path, stored) := (w.session.Path(), PathBlocks(w.store));
    if path[..from] == stored[..from] {
      forall i: nat | i < from ensures path[i] == stored[i] {
        assert path[..from][i] == stored[..from][i];
      }
    }
    if KeepsStoredRows(w, from) {
      forall i | 0 <= i < from ensures path[i] == stored[i] {
        assert w.session.rows.Has(i) || !w.session.rows.Has(i);
      }
    }
  }

  /** A session with no mark is sound exactly when its path is the stored one. */
  lemma {:induction false} CleanIsSoundExactlyWhen(w: World)
    requires Shape(w.store) && w.flight.Grounded? && w.session.rows == CLEAN
    ensures Sound(w) <==> PathBlocks(w.store) == w.session.Path()
  {
    if Sound(w) {
      UnmarkedIsStored(PathBlocks(w.store), w.session.Path(), CLEAN, |w.session.Path()|);
    }
  }

  /** Adopting a switch keeps every unmarked row stored if and only if no marked row the session keeps
      of its window differs from its stored row; the transcript is then the stored path. */
  lemma {:induction false} AnAdoptedSwitchLosesNoMarkExactlyWhen(w: World, store: Node, from: nat, held: nat)
    requires Sound(w) && w.flight.Grounded? && ChangesFrom(w.store, store, from) && Lands(w.session, from, held)
    ensures Sound(SwitchTaken(w, store, from, held)) <==> KeepsStoredRows(w, from)
    ensures KeepsStoredRows(w, from) ==> SwitchTaken(w, store, from, held).session.Path() == PathBlocks(store)
  {
    var (s, stored) := (w.session, PathBlocks(store));
    TheWindowStartsInTheStore(w, store, from);
    AnAdoptedPath(s, stored, from, held);
    CleanIsSoundExactlyWhen(SwitchTaken(w, store, from, held));
    if s.Start() <= from {
      StoredBelowExactlyWhen(w, from);
      JoinedIsStoredExactlyWhen(s.Path()[..from], stored, from);
    }
  }

  lemma {:induction false} JoinedIsStoredExactlyWhen(kept: seq<Block>, stored: seq<Block>, from: nat)
    requires |kept| == from <= |stored|
    ensures kept + stored[from..] == stored <==> kept == stored[..from]
  {
    assert (kept + stored[from..])[..from] == kept;
    assert stored == stored[..from] + stored[from..];
  }

  lemma {:induction false} AMadeSwitchIsSoundExactlyWhen(w: World, position: nat, to: nat, held: nat)
    requires Sound(w) && MaySwitch(w, position, to, held)
    ensures Sound(SwitchMade(w, position, to, held))
            <==> KeepsStoredRows(w, Switched(w.store, position, to).value.1)
  {
    ASwitchKeepsTheBlocksBefore(w.store, position, to);
    AnAdoptedSwitchLosesNoMarkExactlyWhen(w, Switched(w.store, position, to).value.0, Switched(w.store, position, to).value.1, held);
  }

  // A mark that is lost.

  /** A row is stored as it was before, and neither marked nor due to be saved. */
  ghost predicate IsLost(w: World, i: nat)
    requires Shape(w.store)
  {
    && i < |w.session.Path()| && i < |PathBlocks(w.store)| && w.session.Path()[i] != PathBlocks(w.store)[i]
    && !w.session.rows.Has(i) && w.flight.Grounded?
  }

  /** A row that the session keeps of its window and that changes in place after the flush, before the
      adoption, has lost its mark after it: no save is due that would write it. */
  lemma {:induction false} AChangeBeforeASwitchIsLost(w: World, i: nat, block: Block, position: nat, to: nat)
    requires Sound(w) && w.flight.Grounded? && Switched(w.store, position, to).Ok?
    requires w.session.Start() <= i < Switched(w.store, position, to).value.1 <= |w.session.Path()|
    requires i < |PathBlocks(w.store)| && block != PathBlocks(w.store)[i]
    ensures var changed := LogChanged(w, Rewrites(i, block));
            && Sound(changed) && MaySwitch(changed, position, to, 0)
            && Shape(SwitchMade(changed, position, to, 0).store) && IsLost(SwitchMade(changed, position, to, 0), i)
            && !Sound(SwitchMade(changed, position, to, 0))
  {
    var changed := LogChanged(w, Rewrites(i, block));
    AChangeIsSound(w, Rewrites(i, block));
    ChangedPath(w.session, Rewrites(i, block));
    ASwitchKeepsTheBlocksBefore(w.store, position, to);
    var (store, from) := Switched(w.store, position, to).value;
    AMadeSwitchIsSoundExactlyWhen(changed, position, to, 0);
    TheWindowStartsInTheStore(changed, store, from);
    AnAdoptedPath(changed.session, PathBlocks(store), from, 0);
    assert PathBlocks(store)[..from][i] == PathBlocks(w.store)[..from][i];
    assert changed.session.rows.Has(i);
  }

  /** A message with a reply, and two versions of the message after it; the first is on the path. */
  function TwoVersions(message: Block, reply: Block, next: Block, other: Block): Node {
    Node([Row(message, None, None), Row(reply, Some(0), None), Row(next, Some(1), None), Row(other, Some(1), None)],
         [0, 1, 2], None)
  }

  lemma {:induction false} TwoSiblings(n: Node)
    requires |n.rows| == 4 && n.rows[0].follows == None && n.rows[1].follows == Some(0)
    requires forall r :: 2 <= r < 4 ==> n.rows[r].follows == Some(1) && n.rows[r].inPlaceOf == None
    ensures Siblings(n.rows, Some(1)) == [Sibling(2, None), Sibling(3, None)]
  {
    assert SiblingsBelow(n.rows, Some(1), 0) == [];
    assert SiblingsBelow(n.rows, Some(1), 1) == [];
    assert SiblingsBelow(n.rows, Some(1), 2) == [];
    assert SiblingsBelow(n.rows, Some(1), 3) == [Sibling(2, None)];
  }

  lemma {:induction false} TwoSiblingsBeginVersions()
    ensures var two := [Sibling(2, None), Sibling(3, None)];
            Numbered(two) && Firsts(two, two) == [2, 3]
  {
    var two := [Sibling(2, None), Sibling(3, None)];
    assert two[1..] == [two[1]] && two[1..][1..] == [];
    assert Replaced(two, 2) == None && Replaced(two, 3) == None;
    assert Firsts(two, two[1..]) == [3];
  }

  lemma {:induction false} TwoStarts()
    ensures Sort([2, 3]) == [2, 3]
  {
    assert [2, 3][1..] == [3] && [3][1..] == [];
    assert Sort([3]) == [3];
    assert Insert(2, [3]) == [2, 3];
  }

  lemma {:induction false} TwoSiblingsAreTwoVersions()
    ensures var two := [Sibling(2, None), Sibling(3, None)];
            && Numbered(two) && VersionRows(two, 2) == Some([3]) && VersionsOf(two, 2) == Some(Standing(1, 2))
  {
    var two := [Sibling(2, None), Sibling(3, None)];
    TwoSiblingsBeginVersions();
    TwoStarts();
    assert Starts(two) == [2, 3];
    assert two[1..] == [two[1]] && two[1..][1..] == [];
    assert Replaced(two, 2) == None && Replaced(two, 3) == None;
    assert RowsFrom(two, two[1..], 3) == [3];
  }

  lemma {:induction false} TheOtherVersionIsTheLeaf(n: Node)
    requires Shape(n) && |n.rows| == 4 && n.rows[3].follows == Some(1)
    ensures Latest(n.rows, [3], 4) == Some(3) && Tail(n.rows, 3, Some(1)) == [3]
  {
  }

  lemma {:induction false} TheLastMessageShowsItsPlace(n: Node)
    requires Shape(n) && |n.rows| == 4 && n.path == [0, 1, 2] && Siblings(n.rows, Some(1)) == [Sibling(2, None), Sibling(3, None)]
    ensures ShownPlace(n, 2) == Some(1) && PlaceAt(n, Some(1)) == Some(2)
  {
    TwoSiblingsAreTwoVersions();
    assert n.path[1..] == [1, 2];
  }

  lemma {:induction false} ToTheSecondVersion(n: Node)
    requires Shape(n) && |n.rows| == 4 && n.path == [0, 1, 2]
    requires n.rows[0].follows == None && n.rows[1].follows == Some(0)
    requires forall r :: 2 <= r < 4 ==> n.rows[r].follows == Some(1) && n.rows[r].inPlaceOf == None
    ensures Switched(n, 2, 2) == Ok((Node(n.rows, [0, 1, 3], None), 2))
  {
    TwoSiblings(n);
    TwoSiblingsAreTwoVersions();
    TheLastMessageShowsItsPlace(n);
    TheOtherVersionIsTheLeaf(n);
    assert n.path[..2] + [3] == [0, 1, 3];
  }

  /** A run that loses a mark: a restored session switches its last message to the other version, and
      the reply before it is changed between the flush and the adoption. */
  lemma {:induction false} ASwitchMayLoseAMark(message: Block, reply: Block, next: Block, other: Block, changed: Block)
    requires changed != reply
    ensures var n := TwoVersions(message, reply, next, other);
            && Shape(n)
            && var w := World(Session([], PathBlocks(n), false, CLEAN), n, Grounded);
            && Sound(w) && Fits(w.session, Rewrites(1, changed))
            && var late := LogChanged(w, Rewrites(1, changed));
            && Sound(late) && MaySwitch(late, 2, 2, 0)
            && Shape(SwitchMade(late, 2, 2, 0).store) && IsLost(SwitchMade(late, 2, 2, 0), 1)
  {
    var n := TwoVersions(message, reply, next, other);
    assert Shape(n);
    ARestoredSessionIsSound(n, 0);
    assert PathBlocks(n)[..0] == [] && PathBlocks(n)[0..] == PathBlocks(n);
    var w := World(Session([], PathBlocks(n), false, CLEAN), n, Grounded);
    assert w.session.Path() == PathBlocks(n) && PathBlocks(n)[1] == reply;
    ToTheSecondVersion(n);
    AChangeIsSound(w, Rewrites(1, changed));
    AChangeBeforeASwitchIsLost(w, 1, changed, 2, 2);
  }

  // Runs.

  lemma {:induction false} NextIsSound(w: World, e: Event)
    requires Sound(w) && Enabled(w, e)
    ensures Sound(Next(w, e))
  {
    match e
    case ChangeLog(change) => AChangeIsSound(w, change);
    case ChangeState =>
    case BeginSave =>
      if w.session.dirty {
        ASaveBegunIsSound(w);
      } else {
        ASettledSessionIsSound(w);
      }
    case EndSave(taken) =>
      if taken { ATakenSaveIsSound(w); } else { AFailedSaveIsSound(w); }
    case BeginRewrite(blocks, version) =>
      ARewriteBegunIsSound(w, blocks, version);
    case EndRewrite(taken) =>
      if taken { ATakenRewriteIsSound(w); }
    case Reach(from) => ReachingIsSound(w, from);
    case SwitchVersion(position, to, held) =>
      AMadeSwitchIsSoundExactlyWhen(w, position, to, held);
  }

  /** Whether the events may come one after the other. */
  ghost predicate Runs(w: World, events: seq<Event>)
    requires Sound(w)
    decreases |events|
  {
    events == [] || (Enabled(w, events[0]) && (NextIsSound(w, events[0]); Runs(Next(w, events[0]), events[1..])))
  }

  function After(w: World, events: seq<Event>): World
    requires Sound(w) && Runs(w, events)
    decreases |events|
  {
    if events == [] then w
    else
      NextIsSound(w, events[0]);
      After(Next(w, events[0]), events[1..])
  }

  /** Every unmarked row is stored as it is, the store takes the save in flight, and with nothing due
      and no save in flight the stored path is the transcript. */
  ghost predicate StoredButForMarks(w: World) {
    && w.session.Valid() && Shape(w.store)
    && (w.flight.Saving? ==> w.flight.rows.Valid())
    && Agrees(PathBlocks(w.store), w.session.Path(), Unsaved(w))
    && (!w.flight.Grounded? ==> Saved(w.store, w.flight.update).1.None?)
    && (!w.session.dirty && w.flight.Grounded? ==> PathBlocks(w.store) == w.session.Path())
  }

  lemma {:induction false} EveryRunKeepsUnmarkedRowsStored(w: World, events: seq<Event>)
    requires Sound(w) && Runs(w, events)
    ensures StoredButForMarks(After(w, events))
    decreases |events|
  {
    if events == [] {
      SoundKeepsUnmarkedRowsStored(w);
    } else {
      NextIsSound(w, events[0]);
      EveryRunKeepsUnmarkedRowsStored(Next(w, events[0]), events[1..]);
    }
  }

  lemma {:induction false} SoundKeepsUnmarkedRowsStored(w: World)
    requires Sound(w)
    ensures StoredButForMarks(w)
  {
    var (s, stored) := (w.session, PathBlocks(w.store));
    if w.flight.Saving? {
      MoreMarksAgree(stored, w.flight.taken, s.Path(), w.flight.rows, s.rows);
    } else if !s.dirty {
      UnmarkedIsStored(stored, s.Path(), s.rows, |s.Path()|);
    }
  }

  /** A session that is new, or restored with its window starting at `start`, is where a run begins. */
  lemma {:induction false} ARestoredSessionIsSound(store: Node, start: nat)
    requires Shape(store) && start <= |PathBlocks(store)|
    ensures Sound(World(Session(PathBlocks(store)[..start], PathBlocks(store)[start..], false, CLEAN), store, Grounded))
  {
    assert PathBlocks(store)[..start] + PathBlocks(store)[start..] == PathBlocks(store);
  }
}
