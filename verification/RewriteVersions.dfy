/**
 When the session's own rewrites add a version (crates/agent-session/src/core.rs,
 crates/agent-store/src/versions.rs): a retry, an unwind, a dropped attempt and a compaction are saved as
 rewrites that are no version of the user's.
 */
module RewriteVersions {
  import opened Wrappers
  import opened Blocks
  import opened Versions
  import opened TreeStore
  import opened TreeBranches
  import opened DirtyRows
  import opened SaveProtocol
  import opened SaveRuns
  import opened Recovery
  import opened SessionCores

  /** A block with that id stands deeper than `cut` on the path. */
  ghost predicate StandsDeeper(n: Node, cut: nat, id: BlockId)
    requires Shape(n)
  {
    exists k :: cut < k < |PathBlocks(n)| && PathBlocks(n)[k].id == id
  }

  /** The rows by id hold the last row of each. */
  lemma {:induction false} LastRowOf(rows: seq<Row>, tail: seq<nat>, id: BlockId) returns (last: nat)
    requires forall k :: 0 <= k < |tail| ==> tail[k] < |rows|
    requires id in RowsById(rows, tail)
    ensures last < |tail| && tail[last] == RowsById(rows, tail)[id] && rows[tail[last]].block.id == id
    ensures forall j :: last < j < |tail| ==> rows[tail[j]].block.id != id
  {
    var rest := tail[1..];
    if id in RowsById(rows, rest) {
      last := LastRowOf(rows, rest, id);
      last := last + 1;
      forall j | last < j < |tail| ensures rows[tail[j]].block.id != id { assert tail[j] == rest[j - 1]; }
    } else {
      last := 0;
      forall j | 0 < j < |tail| ensures rows[tail[j]].block.id != id { assert tail[j] == rest[j - 1]; }
    }
  }

  lemma {:induction false} ADeeperRowIsCarried(n: Node, cut: nat, id: BlockId, deeper: nat)
    requires Shape(n) && cut < deeper < |n.path| && n.rows[n.path[deeper]].block.id == id
    ensures id in RowsById(n.rows, n.path[cut..]) && RowsById(n.rows, n.path[cut..])[id] != n.path[cut]
  {
    var tail := n.path[cut..];
    assert n.rows[tail[deeper - cut]].block.id == id;
    var last := LastRowOf(n.rows, tail, id);
    PathAscends(n, cut, cut + last);
  }

  lemma {:induction false} ACarriedRowStandsDeeper(
      rows: seq<Row>, path: seq<nat>, cut: nat, id: BlockId) returns (deeper: nat)
    requires cut < |path| && forall k :: 0 <= k < |path| ==> path[k] < |rows|
    requires id in RowsById(rows, path[cut..]) && RowsById(rows, path[cut..])[id] != path[cut]
    ensures cut < deeper < |path| && rows[path[deeper]].block.id == id
  {
    var last := LastRowOf(rows, path[cut..], id);
    deeper := cut + last;
  }

  /** The last row of that id in the cut tail is not the tail's first. */
  predicate IsCarried(n: Node, cut: nat, id: BlockId)
    requires Shape(n) && cut < |n.path|
  {
    var moved := RowsById(n.rows, n.path[cut..]);
    id in moved && moved[id] != n.path[cut]
  }

  lemma {:induction false} WhatStandsDeeperIsCarried(n: Node, cut: nat, id: BlockId)
    requires Shape(n) && cut < |n.path| && StandsDeeper(n, cut, id)
    ensures IsCarried(n, cut, id)
  {
    var deeper :| cut < deeper < |PathBlocks(n)| && PathBlocks(n)[deeper].id == id;
    ADeeperRowIsCarried(n, cut, id, deeper);
  }

  lemma {:induction false} WhatIsCarriedStandsDeeper(n: Node, cut: nat, id: BlockId)
    requires Shape(n) && cut < |n.path| && IsCarried(n, cut, id)
    ensures StandsDeeper(n, cut, id)
  {
    var deeper := ACarriedRowStandsDeeper(n.rows, n.path, cut, id);
    assert PathBlocks(n)[deeper].id == id;
  }

  lemma {:induction false} CarriesFromDeeperExactlyWhen(n: Node, u: Update)
    requires Shape(n) && CutAt(n, u) < |n.path| && Added(CutAt(n, u), u.changed) != []
    ensures CarriesFromDeeper(n, u) <==> StandsDeeper(n, CutAt(n, u), Added(CutAt(n, u), u.changed)[0].block.id)
  {
    var (cut, id) := (CutAt(n, u), Added(CutAt(n, u), u.changed)[0].block.id);
    if StandsDeeper(n, cut, id) { WhatStandsDeeperIsCarried(n, cut, id); }
    if IsCarried(n, cut, id) { WhatIsCarriedStandsDeeper(n, cut, id); }
  }

  /** A rewrite of the session's own adds a version where its branch begins if and only if the block it
      begins with stood deeper on the path. */
  lemma {:induction false} AnOwnBranchAddsAVersionExactlyWhen(n: Node, u: Update, first: Block)
    requires Shape(n) && !u.version && CutAt(n, u) < |n.path|
    requires Added(CutAt(n, u), u.changed) != [] && Added(CutAt(n, u), u.changed)[0] == Change(CutAt(n, u), first)
    ensures Branches(n, u) && CutAt(n, u) < |Saved(n, u).0.path|
    ensures AddsAVersion(SiblingsBefore(n, u), SiblingsAfter(n, u), Saved(n, u).0.path[CutAt(n, u)])
            <==> StandsDeeper(n, CutAt(n, u), first.id)
  {
    CarriesFromDeeperExactlyWhen(n, u);
    RewriteAddsAVersionExactlyWhen(n, u);
  }

  // What a rewrite gives from where the histories part.

  lemma {:induction false} AllAddedFrom(target: seq<Block>, indices: seq<nat>, cut: nat)
    requires forall k :: 0 <= k < |indices| ==> cut <= indices[k] < |target|
    ensures Added(cut, ChangesAt(target, indices)) == ChangesAt(target, indices)
  {
    if indices != [] {
      AllAddedFrom(target, indices[1..], cut);
      assert ChangesAt(target, indices)[1..] == ChangesAt(target, indices[1..]);
    }
  }

  lemma {:induction false} NoRowIsMarked(from: nat, end: nat)
    requires from <= end
    ensures CLEAN.Indices(from, end) == []
    decreases end - from
  {
    if from < end {
      NoRowIsMarked(from + 1, end);
    }
  }

  /** The session and the store agree, and nothing waits for a save. */
  ghost predicate IsSaved(n: Node, s: Session) {
    Shape(n) && s.Valid() && s.rows == CLEAN && PathBlocks(n) == s.Path()
  }

  lemma {:induction false} ARangeOfChanges(target: seq<Block>, indices: seq<nat>, from: nat)
    requires from <= |target| && indices == Range(from, |target|)
    ensures var added := Added(from, ChangesAt(target, indices));
            if from == |target| then added == [] else added != [] && added[0] == Change(from, target[from])
  {
    AllAddedFrom(target, indices, from);
  }

  lemma {:induction false} TheRowsOfARewrite(s: Session, blocks: seq<Block>)
    requires s.Valid() && s.rows == CLEAN
    ensures RewrittenFrom(s, blocks) == s.Start() + Kept(s.blocks, blocks)
    ensures RewrittenRows(s, blocks) == Range(RewrittenFrom(s, blocks), s.Start() + |blocks|)
  {
    var from := RewrittenFrom(s, blocks);
    NoRowIsMarked(0, from);
    assert s.rows.Indices(0, from) == [];
  }

  lemma {:induction false} TheCutOfARewrite(n: Node, s: Session, blocks: seq<Block>)
    requires IsSaved(n, s)
    ensures CutAt(n, RewriteOf(s, blocks, false)) == s.Start() + Kept(s.blocks, blocks) && |n.path| == |s.Path()|
  {
  }

  lemma {:induction false} ARewriteGivesTheRest(n: Node, s: Session, blocks: seq<Block>)
    requires IsSaved(n, s) && Kept(s.blocks, blocks) < |s.blocks| && Kept(s.blocks, blocks) < |blocks|
    ensures var (u, kept) := (RewriteOf(s, blocks, false), Kept(s.blocks, blocks));
            && CutAt(n, u) == s.Start() + kept && CutAt(n, u) < |n.path|
            && Added(CutAt(n, u), u.changed) != [] && Added(CutAt(n, u), u.changed)[0] == Change(s.Start() + kept, blocks[kept])
  {
    TheCutOfARewrite(n, s, blocks);
    TheRowsOfARewrite(s, blocks);
    ARangeOfChanges(s.before + blocks, RewrittenRows(s, blocks), RewrittenFrom(s, blocks));
  }

  /** A history rewrite of the session's own adds a version if and only if the first block that differs
      stood further on in the history it replaces. */
  lemma {:induction false} ARewriteAddsAVersionExactlyWhen(n: Node, s: Session, blocks: seq<Block>)
    requires IsSaved(n, s) && Kept(s.blocks, blocks) < |s.blocks| && Kept(s.blocks, blocks) < |blocks|
    ensures var (u, kept) := (RewriteOf(s, blocks, false), Kept(s.blocks, blocks));
            && CutAt(n, u) < |Saved(n, u).0.path|
            && (AddsAVersion(SiblingsBefore(n, u), SiblingsAfter(n, u), Saved(n, u).0.path[CutAt(n, u)])
                <==> exists k :: kept < k < |s.blocks| && s.blocks[k].id == blocks[kept].id)
  {
    var (u, kept) := (RewriteOf(s, blocks, false), Kept(s.blocks, blocks));
    ARewriteGivesTheRest(n, s, blocks);
    AnOwnBranchAddsAVersionExactlyWhen(n, u, blocks[kept]);
    DeeperInTheWindow(n, s, kept, blocks[kept].id);
  }

  /** An edit's rewrite, which is a version of the user's, adds one unless the first block that differs is a change of
      the very block that stood there and no block further on has its identity. */
  lemma {:induction false} AnEditAddsAVersionExactlyWhen(n: Node, s: Session, blocks: seq<Block>)
    requires IsSaved(n, s) && Kept(s.blocks, blocks) < |s.blocks| && Kept(s.blocks, blocks) < |blocks|
    ensures var (u, kept) := (RewriteOf(s, blocks, true), Kept(s.blocks, blocks));
            && CutAt(n, u) < |Saved(n, u).0.path|
            && (AddsAVersion(SiblingsBefore(n, u), SiblingsAfter(n, u), Saved(n, u).0.path[CutAt(n, u)])
                <==> s.blocks[kept].id != blocks[kept].id || exists k :: kept < k < |s.blocks| && s.blocks[k].id == blocks[kept].id)
  {
    var (u, own, kept) := (RewriteOf(s, blocks, true), RewriteOf(s, blocks, false), Kept(s.blocks, blocks));
    assert u == own.(version := true);
    ARewriteGivesTheRest(n, s, blocks);
    CarriesFromDeeperExactlyWhen(n, u);
    RewriteAddsAVersionExactlyWhen(n, u);
    DeeperInTheWindow(n, s, kept, blocks[kept].id);
    TheFirstIsCarriedExactlyWhen(n, CutAt(n, u), blocks[kept].id);
    AJoinAddsNoVersion(n, u);
  }

  lemma {:induction false} TheFirstIsCarriedExactlyWhen(n: Node, cut: nat, id: BlockId)
    requires Shape(n) && cut < |n.path|
    ensures var moved := RowsById(n.rows, n.path[cut..]);
            id in moved && moved[id] == n.path[cut] <==> PathBlocks(n)[cut].id == id && !StandsDeeper(n, cut, id)
  {
    var tail := n.path[cut..];
    assert n.rows[tail[0]].block == PathBlocks(n)[cut];
    if StandsDeeper(n, cut, id) { WhatStandsDeeperIsCarried(n, cut, id); }
    if IsCarried(n, cut, id) { WhatIsCarriedStandsDeeper(n, cut, id); }
  }

  lemma {:induction false} AJoinAddsNoVersion(n: Node, u: Update)
    requires Shape(n) && CutAt(n, u) < |n.path| && Branches(n, u) && CutAt(n, u) < |Saved(n, u).0.path|
    ensures var row := Saved(n, u).0.path[CutAt(n, u)];
            JoinsTheVersionOf(SiblingsBefore(n, u), SiblingsAfter(n, u), row, n.path[CutAt(n, u)]) ==>
              !AddsAVersion(SiblingsBefore(n, u), SiblingsAfter(n, u), row)
  {
  }

  lemma {:induction false} DeeperInTheWindow(n: Node, s: Session, kept: nat, id: BlockId)
    requires IsSaved(n, s)
    ensures StandsDeeper(n, s.Start() + kept, id) <==> exists k :: kept < k < |s.blocks| && s.blocks[k].id == id
  {
    if k :| s.Start() + kept < k < |PathBlocks(n)| && PathBlocks(n)[k].id == id {
      assert s.blocks[k - s.Start()] == s.Path()[k];
    }
    if k :| kept < k < |s.blocks| && s.blocks[k].id == id {
      assert PathBlocks(n)[s.Start() + k] == s.blocks[k];
    }
  }

  // Rewrites that only drop blocks.

  /** `kept` is what is left of `blocks` when some are dropped. */
  predicate OnlyDrops(blocks: seq<Block>, kept: seq<Block>) {
    kept == []
    || (blocks != []
        && (OnlyDrops(blocks[..|blocks| - 1], kept)
            || (blocks[|blocks| - 1] == kept[|kept| - 1] && OnlyDrops(blocks[..|blocks| - 1], kept[..|kept| - 1]))))
  }

  lemma {:induction false} AKeptBlockStoodNoEarlier(blocks: seq<Block>, kept: seq<Block>, i: nat) returns (at: nat)
    requires OnlyDrops(blocks, kept) && i < |kept|
    ensures i <= at < |blocks| && blocks[at] == kept[i] && |kept| - i <= |blocks| - at
  {
    var before := blocks[..|blocks| - 1];
    if OnlyDrops(before, kept) {
      at := AKeptBlockStoodNoEarlier(before, kept, i);
    } else if i == |kept| - 1 {
      at := |blocks| - 1;
      DroppingMakesNoLonger(blocks, kept);
    } else {
      at := AKeptBlockStoodNoEarlier(before, kept[..|kept| - 1], i);
    }
  }

  lemma {:induction false} DroppingMakesNoLonger(blocks: seq<Block>, kept: seq<Block>)
    requires OnlyDrops(blocks, kept)
    ensures |kept| <= |blocks|
  {
    if kept != [] {
      var before := blocks[..|blocks| - 1];
      if OnlyDrops(before, kept) {
        DroppingMakesNoLonger(before, kept);
      } else {
        DroppingMakesNoLonger(before, kept[..|kept| - 1]);
      }
    }
  }

  /** A rewrite that only drops blocks adds a version whenever it begins a branch: that is when it keeps a
      block after one it drops. */
  lemma {:induction false} ADropAddsAVersionExactlyWhenItKeepsALaterBlock(n: Node, s: Session, blocks: seq<Block>)
    requires IsSaved(n, s) && OnlyDrops(s.blocks, blocks) && blocks != s.blocks
    ensures var (u, kept) := (RewriteOf(s, blocks, false), Kept(s.blocks, blocks));
            && kept < |s.blocks|
            && (kept < |blocks| ==>
                  && CutAt(n, u) < |Saved(n, u).0.path|
                  && AddsAVersion(SiblingsBefore(n, u), SiblingsAfter(n, u), Saved(n, u).0.path[CutAt(n, u)]))
            && (kept == |blocks| ==> Added(CutAt(n, u), u.changed) == [])
  {
    var (u, kept) := (RewriteOf(s, blocks, false), Kept(s.blocks, blocks));
    DroppingMakesNoLonger(s.blocks, blocks);
    assert kept == |s.blocks| ==> blocks == s.blocks;
    if kept < |blocks| {
      var at := AKeptBlockStoodNoEarlier(s.blocks, blocks, kept);
      assert at != kept;
      ARewriteAddsAVersionExactlyWhen(n, s, blocks);
    } else {
      TheCutOfARewrite(n, s, blocks);
      TheRowsOfARewrite(s, blocks);
      ARangeOfChanges(s.before + blocks, RewrittenRows(s, blocks), RewrittenFrom(s, blocks));
    }
  }

  lemma {:induction false} DropsAll(blocks: seq<Block>)
    ensures OnlyDrops(blocks, [])
  {
  }

  lemma {:induction false} DropsNothing(blocks: seq<Block>)
    ensures OnlyDrops(blocks, blocks)
  {
    if blocks != [] {
      DropsNothing(blocks[..|blocks| - 1]);
    }
  }

  lemma {:induction false} DropsAfter(first: seq<Block>, rest: seq<Block>, kept: seq<Block>)
    requires OnlyDrops(rest, kept)
    ensures OnlyDrops(first + rest, first + kept)
  {
    if rest == [] {
      assert first + rest == first && first + kept == first;
      DropsNothing(first);
    } else {
      var before := rest[..|rest| - 1];
      assert (first + rest)[..|first + rest| - 1] == first + before;
      if OnlyDrops(before, kept) {
        DropsAfter(first, before, kept);
      } else {
        DropsAfter(first, before, kept[..|kept| - 1]);
        assert (first + kept)[..|first + kept| - 1] == first + kept[..|kept| - 1];
      }
    }
  }

  lemma {:induction false} CompactionsOnlyDrop(blocks: seq<Block>)
    ensures OnlyDrops(blocks, Compactions(blocks))
  {
    if blocks != [] {
      var (before, last) := (blocks[..|blocks| - 1], blocks[|blocks| - 1]);
      CompactionsOnlyDrop(before);
      if IsCompaction(last) {
        assert Compactions(blocks)[..|Compactions(blocks)| - 1] == Compactions(before);
      } else {
        assert Compactions(blocks) == Compactions(before);
      }
    }
  }

  lemma {:induction false} WhatARetryKeepsOnlyDrops(blocks: seq<Block>, turn: TurnId)
    ensures OnlyDrops(blocks, KeptAfter(blocks, turn))
  {
    if blocks != [] {
      var (before, last) := (blocks[..|blocks| - 1], blocks[|blocks| - 1]);
      WhatARetryKeepsOnlyDrops(before, turn);
      if KeptByARetry(last, turn) {
        assert KeptAfter(blocks, turn)[..|KeptAfter(blocks, turn)| - 1] == KeptAfter(before, turn);
      } else {
        assert KeptAfter(blocks, turn) == KeptAfter(before, turn);
      }
    }
  }

  /** A dropped attempt, an unwound turn and a retry only drop blocks, and the dropped attempt keeps none
      after them. */
  lemma {:induction false} RecoveryOnlyDrops(blocks: seq<Block>, cut: nat)
    requires cut <= |blocks|
    ensures OnlyDrops(blocks, blocks[..cut]) && Kept(blocks, blocks[..cut]) == cut
    ensures OnlyDrops(blocks, Unwound(blocks, cut))
    ensures cut < |blocks| && OpensARetriedTurn(blocks, cut) ==> OnlyDrops(blocks, Rewound(blocks, cut))
  {
    assert blocks == blocks[..cut] + blocks[cut..] && blocks[..cut] == blocks[..cut] + [];
    DropsAll(blocks[cut..]);
    DropsAfter(blocks[..cut], blocks[cut..], []);
    KeepsAPrefix(blocks, cut);
    CompactionsOnlyDrop(blocks[cut..]);
    DropsAfter(blocks[..cut], blocks[cut..], Compactions(blocks[cut..]));
    if cut < |blocks| && OpensARetriedTurn(blocks, cut) {
      var turn := TurnOf(blocks[cut]).value;
      assert blocks == blocks[..cut + 1] + blocks[cut + 1..];
      WhatARetryKeepsOnlyDrops(blocks[cut + 1..], turn);
      DropsAfter(blocks[..cut + 1], blocks[cut + 1..], KeptAfter(blocks[cut + 1..], turn));
    }
  }

  lemma {:induction false} KeepsAPrefix(blocks: seq<Block>, cut: nat)
    requires cut <= |blocks|
    ensures Kept(blocks, blocks[..cut]) == cut
  {
    if cut > 0 {
      assert blocks[..cut][1..] == blocks[1..][..cut - 1];
      KeepsAPrefix(blocks[1..], cut - 1);
    }
  }

  // A compaction.

  lemma {:induction false} ASaveFromAFloor(n: Node, target: seq<Block>, at: nat)
    requires Shape(n) && at < |n.path| && at < |target|
    ensures var u := SaveOf(target, Marks(Some(at), {}));
            && CutAt(n, u) == at && Added(at, u.changed) != [] && Added(at, u.changed)[0] == Change(at, target[at])
  {
    var indices := Marks(Some(at), {}).Indices(0, |target|);
    AllAddedFrom(target, indices, at) by {
      forall k | 0 <= k < |indices| ensures at <= indices[k] { assert indices[k] in indices; }
    }
    assert at in indices;
    var k :| 0 <= k < |indices| && indices[k] == at;
    assert indices[0] in indices;
  }

  /** A pass inserts its boundary under a new id and ends the transcript with its marker: its save adds no
      version, and the boundary is in the version of the block it stands before. */
  lemma {:induction false} ACompactionAddsNoVersion(n: Node, s: Session, at: nat, boundary: Block, end: seq<Block>)
    requires IsSaved(n, s) && s.Start() <= at < |s.Path()|
    requires forall k :: 0 <= k < |s.Path()| ==> s.Path()[k].id != boundary.id
    ensures var u := SaveOf(s.Path()[..at] + [boundary] + s.Path()[at..] + end, s.rows.MoveFrom(at));
            && CutAt(n, u) == at && at < |Saved(n, u).0.path|
            && !AddsAVersion(SiblingsBefore(n, u), SiblingsAfter(n, u), Saved(n, u).0.path[at])
            && JoinsTheVersionOf(SiblingsBefore(n, u), SiblingsAfter(n, u), Saved(n, u).0.path[at], n.path[at])
  {
    var target := s.Path()[..at] + [boundary] + s.Path()[at..] + end;
    assert s.rows.MoveFrom(at) == Marks(Some(at), {});
    var u := SaveOf(target, s.rows.MoveFrom(at));
    ASaveFromAFloor(n, target, at);
    CarriesFromDeeperExactlyWhen(n, u);
    RewriteAddsAVersionExactlyWhen(n, u);
  }
}
