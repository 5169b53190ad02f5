/**
 The calls of one step return in any order, and the lists they end with are the same: those of
 planning each call after the calls before it in the transcript.
 */
module Confluence {
  import opened Wrappers
  import opened Paths
  import opened FileTracking
  import opened ChangedLists

  // Planning a stored view again, with no directory, gives its own files again.

  lemma {:induction false} WrittenOfBoth(a: seq<EditedFile>, b: seq<EditedFile>)
    ensures WrittenFiles(a + b) == WrittenFiles(a) + WrittenFiles(b)
    ensures Reported(a + b) == Reported(a) + Reported(b)
  {
    if b == [] {
      assert a + b == a;
    } else {
      assert (a + b)[..|a + b| - 1] == a + b[..|b| - 1];
      WrittenOfBoth(a, b[..|b| - 1]);
    }
  }

  lemma {:induction false} NoneWritten(files: seq<EditedFile>)
    requires forall k :: 0 <= k < |files| ==> !IsWritten(files[k])
    ensures WrittenFiles(files) == [] && Reported(files) == []
  {
    if files != [] {
      NoneWritten(files[..|files| - 1]);
    }
  }

  lemma {:induction false} AllWritten(files: seq<EditedFile>)
    requires forall k :: 0 <= k < |files| ==> IsWritten(files[k])
    ensures WrittenFiles(files) == files
  {
    if files != [] {
      AllWritten(files[..|files| - 1]);
    }
  }

  lemma {:induction false} ReportedOfTheWritten(files: seq<EditedFile>)
    ensures Reported(WrittenFiles(files)) == Reported(files)
  {
    if files != [] {
      var (before, last) := (files[..|files| - 1], files[|files| - 1]);
      ReportedOfTheWritten(before);
      var written := WrittenFiles(before);
      assert (written + [last])[..|written|] == written;
    }
  }

  /** The files but for their marks. */
  ghost predicate SameButMarks(a: seq<EditedFile>, b: seq<EditedFile>) {
    |a| == |b| && forall k :: 0 <= k < |a| ==> a[k].(outside := b[k].outside) == b[k]
  }

  lemma {:induction false} ReportedIgnoresMarks(a: seq<EditedFile>, b: seq<EditedFile>)
    requires SameButMarks(a, b)
    ensures Reported(a) == Reported(b)
  {
    if a != [] {
      ReportedIgnoresMarks(a[..|a| - 1], b[..|b| - 1]);
    }
  }

  lemma {:induction false} NotAtIgnoresMarks(a: seq<EditedFile>, b: seq<EditedFile>, path: Path)
    requires SameButMarks(a, b)
    ensures SameButMarks(NotAt(a, path), NotAt(b, path))
  {
    if a != [] {
      NotAtIgnoresMarks(a[..|a| - 1], b[..|b| - 1], path);
    }
  }

  lemma {:induction false} NamesIgnoresMarks(a: seq<EditedFile>, b: seq<EditedFile>, written: nat, path: Path)
    requires SameButMarks(a, b) && written <= |a|
    ensures Names(a[..written], path) <==> Names(b[..written], path)
  {
    forall k | 0 <= k < written ensures a[..written][k].path == b[..written][k].path {
      assert a[k].path == b[k].path;
    }
  }

  lemma {:induction false} ChangesIgnoreMarks(a: seq<EditedFile>, b: seq<EditedFile>, changes: seq<PathChange>)
    requires SameButMarks(a, b)
    ensures SameButMarks(WithChanges(a, changes), WithChanges(b, changes))
  {
    if changes != [] {
      var (before, last) := (changes[..|changes| - 1], changes[|changes| - 1]);
      ChangesIgnoreMarks(a, b, before);
      var path := ChangedTo(last).path;
      NamesIgnoresMarks(WithChanges(a, before), WithChanges(b, before), |a|, path);
      NotAtIgnoresMarks(WithChanges(a, before), WithChanges(b, before), path);
    }
  }

  lemma {:induction false} WrittenFirst(files: seq<EditedFile>, written: nat)
    requires written <= |files|
    requires forall k :: 0 <= k < written ==> IsWritten(files[k])
    requires forall k :: written <= k < |files| ==> !IsWritten(files[k])
    ensures WrittenFiles(files) == files[..written] && Reported(files) == Reported(files[..written])
  {
    assert files == files[..written] + files[written..];
    WrittenOfBoth(files[..written], files[written..]);
    AllWritten(files[..written]);
    NoneWritten(files[written..]);
  }

  lemma {:induction false} OwnFilesKeepTheReport(view: View, directory: Option<Directory>)
    ensures Reported(CallFiles(view, directory)) == Reported(view.files)
    ensures SameButMarks(WrittenFiles(CallFiles(view, directory)), WrittenFiles(view.files))
  {
    var written := WrittenFiles(view.files);
    var raw := WithChanges(written, view.changes);
    var own := CallFiles(view, directory);
    assert forall k :: 0 <= k < |own| ==> own[k].kind == raw[k].kind;
    assert forall k :: 0 <= k < |written| ==> raw[k] == written[k];
    WrittenFirst(own, |written|);
    assert SameButMarks(own[..|written|], written);
    ReportedIgnoresMarks(own[..|written|], written);
    ReportedOfTheWritten(view.files);
  }

  /** A stored view's own files are those it is planned again with, with no directory: a mark is a
      path's, so paths that are named twice make no difference. */
  lemma {:induction false} PlanningAgainKeepsOwnFiles(view: View, directory: Option<Directory>)
    ensures CallFiles(view.(files := CallFiles(view, directory)), None) == CallFiles(view, directory)
  {
    var own := CallFiles(view, directory);
    var raw := WithChanges(WrittenFiles(view.files), view.changes);
    OwnFilesKeepTheReport(view, directory);
    var again := WithChanges(WrittenFiles(own), view.changes);
    ChangesIgnoreMarks(WrittenFiles(own), WrittenFiles(view.files), view.changes);
    assert SameButMarks(again, raw);
    forall k | 0 <= k < |own| ensures MarkOf(own, None, again[k].path) == own[k].outside {
      assert again[k].path == own[k].path;
      assert forall j :: 0 <= j < |own| && own[j].path == own[k].path ==> own[j].outside == own[k].outside;
    }
    forall k | 0 <= k < |own| ensures MarkedFiles(own, None, again)[k] == own[k] {
      assert again[k].(outside := raw[k].outside) == raw[k];
    }
  }

  // A settled transcript: planning any listed call again changes nothing.

  function PlannedAgain(blocks: seq<Entry>, index: nat): View
    requires index < |blocks| && HasLists(blocks[index])
  {
    var view := blocks[index].view.value;
    Finished(Plan(blocks, index, view, None), view)
  }

  ghost predicate SettledAt(blocks: seq<Entry>, index: nat)
    requires index < |blocks|
  {
    HasLists(blocks[index]) ==> blocks[index].view.value == PlannedAgain(blocks, index)
  }

  ghost predicate Settled(blocks: seq<Entry>)
  {
    forall k :: 0 <= k < |blocks| ==> SettledAt(blocks, k)
  }

  /** What later lists read of a block. */
  ghost predicate SameWork(a: Entry, b: Entry) {
    match (a, b)
    case (ShellCall(run, Some(view)), ShellCall(otherRun, Some(other))) =>
      run == otherRun && view.command == other.command && view.files == other.files && view.changes == other.changes
    case _ => a == b
  }

  ghost predicate SameWorkIn(a: seq<Entry>, b: seq<Entry>, from: nat, index: nat) {
    |a| == |b| && forall k :: from <= k < index && k < |a| ==> SameWork(a[k], b[k])
  }

  lemma {:induction false} CallsBeforeReadTheWork(a: seq<Entry>, b: seq<Entry>, from: nat, index: nat, run: Option<nat>)
    requires from <= index <= |a| && SameWorkIn(a, b, from, index)
    ensures CallsBefore(a, from, index, run) == CallsBefore(b, from, index, run)
    decreases index
  {
    if from < index {
      assert SameWork(a[index - 1], b[index - 1]);
      CallsBeforeReadTheWork(a, b, from, index - 1, run);
    }
  }

  lemma {:induction false} RequestsStartAtMessages(a: seq<Entry>, b: seq<Entry>, index: nat)
    requires index <= |a| == |b| && forall k :: 0 <= k < index ==> (a[k].Message? <==> b[k].Message?)
    ensures RequestStart(a, index) == RequestStart(b, index)
  {
    if index > 0 {
      RequestsStartAtMessages(a, b, index - 1);
    }
  }

  function RequestFrom(blocks: seq<Entry>, index: nat): (from: nat)
    requires index <= |blocks|
    ensures from <= index
  {
    var start := RequestStart(blocks, index);
    if start.Some? then start.value else 0
  }

  /** A plan reads the work of its request's calls before it, and where its request starts. */
  lemma {:induction false} APlanReadsTheWorkBeforeIt(
      a: seq<Entry>, b: seq<Entry>, index: nat, view: View, directory: Option<Directory>)
    requires index < |a| == |b|
    requires a[index].ShellCall? && b[index].ShellCall? && a[index].run == b[index].run
    requires forall k :: 0 <= k < index ==> (a[k].Message? <==> b[k].Message?)
    requires SameWorkIn(a, b, RequestFrom(a, index), index)
    ensures Plan(a, index, view, directory) == Plan(b, index, view, directory)
  {
    RequestsStartAtMessages(a, b, index);
    CallsBeforeReadTheWork(a, b, RequestFrom(a, index), index, None);
    CallsBeforeReadTheWork(a, b, RequestFrom(a, index), index, Some(a[index].run));
  }

  /** A call stored with its lists is settled. */
  lemma {:induction false} AFinishedViewIsSettled(
      blocks: seq<Entry>, index: nat, view: View, directory: Option<Directory>)
    requires index < |blocks| && blocks[index].ShellCall?
    ensures var after := WithView(blocks, index, Finished(Plan(blocks, index, view, directory), view));
            SettledAt(after, index)
  {
    var planned := Plan(blocks, index, view, directory);
    var finished := Finished(planned, view);
    var after := WithView(blocks, index, finished);
    assert forall k :: 0 <= k < |blocks| && k != index ==> after[k] == blocks[k];
    SameFinishedView(view, planned, directory);
    APlanReadsTheWorkBeforeIt(blocks, after, index, finished, None);
    assert CallOf(finished, planned.files) == CallOf(view, planned.files);
  }

  lemma {:induction false} SameFinishedView(view: View, planned: Planned, directory: Option<Directory>)
    requires planned.files == CallFiles(view, directory)
    ensures CallFiles(Finished(planned, view), None) == planned.files
    ensures Reported(Finished(planned, view).files) == Reported(view.files)
  {
    PlanningAgainKeepsOwnFiles(view, directory);
    OwnFilesKeepTheReport(view, directory);
    var stored := view.(files := planned.files);
    assert CallFiles(Finished(planned, view), None) == CallFiles(stored, None);
  }

  // A call that completes keeps the transcript settled.

  ghost predicate SameWorkAll(a: seq<Entry>, b: seq<Entry>) {
    SameWorkIn(a, b, 0, |a|)
  }

  ghost predicate SettledButFor(blocks: seq<Entry>, indices: seq<nat>)
  {
    forall k: nat :: k < |blocks| && k !in indices ==> SettledAt(blocks, k)
  }

  lemma {:induction false} SameWorkKeepsSettled(a: seq<Entry>, b: seq<Entry>, index: nat)
    requires SameWorkAll(a, b)
    requires index < |a| && a[index] == b[index] && SettledAt(a, index)
    ensures SettledAt(b, index)
  {
    if HasLists(b[index]) {
      forall k | 0 <= k < index ensures a[k].Message? <==> b[k].Message? { assert SameWork(a[k], b[k]); }
      APlanReadsTheWorkBeforeIt(a, b, index, a[index].view.value, None);
    }
  }

  lemma {:induction false} ARelistedCallDidTheSameWork(blocks: seq<Entry>, at: nat)
    requires at < |blocks| && HasLists(blocks[at])
    requires CallFiles(blocks[at].view.value, None) == blocks[at].view.value.files
    ensures SameWorkAll(blocks, WithView(blocks, at, PlannedAgain(blocks, at)))
  {
  }

  /** The own files of a call with lists are what planning it again makes of them. */
  ghost predicate OwnFilesStay(blocks: seq<Entry>) {
    forall k :: 0 <= k < |blocks| && HasLists(blocks[k]) ==>
                  CallFiles(blocks[k].view.value, None) == blocks[k].view.value.files
  }

  /** The same calls have lists, and a block that has none is as it was. */
  ghost predicate SameListed(a: seq<Entry>, b: seq<Entry>) {
    && |a| == |b|
    && forall k :: 0 <= k < |a| ==> (HasLists(a[k]) <==> HasLists(b[k])) && (HasLists(a[k]) || a[k] == b[k])
  }

  lemma {:induction false} RelistingOneSettlesIt(blocks: seq<Entry>, indices: seq<nat>)
    requires OwnFilesStay(blocks) && indices != [] && indices[0] < |blocks|
    requires HasLists(blocks[indices[0]]) && SettledButFor(blocks, indices)
    ensures var after := WithView(blocks, indices[0], PlannedAgain(blocks, indices[0]));
            && OwnFilesStay(after) && SettledButFor(after, indices[1..])
            && SameWorkAll(blocks, after)
            && SameListed(blocks, after)
  {
    var at := indices[0];
    var view := blocks[at].view.value;
    var after := WithView(blocks, at, PlannedAgain(blocks, at));
    ARelistedCallDidTheSameWork(blocks, at);
    AFinishedViewIsSettled(blocks, at, view, None);
    SameFinishedView(view, Plan(blocks, at, view, None), None);
    forall k: nat | k < |blocks| && k !in indices[1..] ensures SettledAt(after, k) {
      if k != at {
        assert k !in indices;
        SameWorkKeepsSettled(blocks, after, k);
      }
    }
  }

  lemma {:induction false} RelistingSettles(blocks: seq<Entry>, indices: seq<nat>)
    requires OwnFilesStay(blocks) && SettledButFor(blocks, indices)
    requires forall k :: 0 <= k < |indices| ==> indices[k] < |blocks| && HasLists(blocks[indices[k]])
    ensures var after := Relisted(blocks, indices);
            Settled(after) && OwnFilesStay(after) && SameWorkAll(blocks, after)
            && SameListed(blocks, after)
    decreases |indices|
  {
    if indices != [] {
      assert HasLists(blocks[indices[0]]);
      RelistingOneSettlesIt(blocks, indices);
      var one := WithView(blocks, indices[0], PlannedAgain(blocks, indices[0]));
      RelistingSettles(one, indices[1..]);
      SameWorkIsTransitive(blocks, one, Relisted(blocks, indices));
    }
  }

  lemma {:induction false} SameWorkIsTransitive(a: seq<Entry>, b: seq<Entry>, c: seq<Entry>)
    requires SameWorkAll(a, b) && SameWorkAll(b, c)
    ensures SameWorkAll(a, c)
  {
    forall k | 0 <= k < |a| ensures SameWork(a[k], c[k]) {
      assert SameWork(a[k], b[k]) && SameWork(b[k], c[k]);
    }
  }

  /** Whether a transcript's lists are those of planning each call in order. */
  ghost predicate InOrder(blocks: seq<Entry>) {
    OwnFilesStay(blocks) && Settled(blocks)
  }

  /** A call that returns, whenever it does, leaves every list as planning in order makes it. */
  lemma {:induction false} ACompletionKeepsListsInOrder(
      blocks: seq<Entry>, index: nat, view: View, directory: Option<Directory>)
    requires InOrder(blocks) && index < |blocks| && blocks[index].ShellCall?
    ensures InOrder(Completed(blocks, index, view, directory))
    ensures var finished := Finished(Plan(blocks, index, view, directory), view);
            SameWorkAll(WithView(blocks, index, finished), Completed(blocks, index, view, directory))
    ensures var finished := Finished(Plan(blocks, index, view, directory), view);
            SameListed(WithView(blocks, index, finished), Completed(blocks, index, view, directory))
  {
    var planned := Plan(blocks, index, view, directory);
    var stored := WithView(blocks, index, Finished(planned, view));
    AStoredCallLeavesLaterOnesToSettle(blocks, index, view, directory);
    RelistingSettles(stored, LaterInRequest(stored, index));
  }

  lemma {:induction false} OthersStaySettled(blocks: seq<Entry>, index: nat, finished: View)
    requires InOrder(blocks) && index < |blocks| && blocks[index].ShellCall?
    requires CallFiles(finished, None) == finished.files
    requires var stored := WithView(blocks, index, finished); SettledAt(stored, index)
    ensures var stored := WithView(blocks, index, finished);
            OwnFilesStay(stored) && SettledButFor(stored, LaterInRequest(stored, index))
  {
    var stored := WithView(blocks, index, finished);
    assert forall j :: 0 <= j < |blocks| && j != index ==> stored[j] == blocks[j];
    forall k: nat | k < |blocks| && k !in LaterInRequest(stored, index) ensures SettledAt(stored, k) {
      if k != index && HasLists(stored[k]) {
        ACallOutOfTheRequestStaysSettled(blocks, index, stored, k);
      }
    }
  }

  /** Once a call is stored, only the calls after it in its request are still to be listed again. */
  lemma {:induction false} AStoredCallLeavesLaterOnesToSettle(blocks: seq<Entry>, index: nat, view: View,
                                                              directory: Option<Directory>)
    requires InOrder(blocks) && index < |blocks| && blocks[index].ShellCall?
    ensures var stored := WithView(blocks, index, Finished(Plan(blocks, index, view, directory), view));
            OwnFilesStay(stored) && SettledButFor(stored, LaterInRequest(stored, index))
  {
    var planned := Plan(blocks, index, view, directory);
    AFinishedViewIsSettled(blocks, index, view, directory);
    SameFinishedView(view, planned, directory);
    OthersStaySettled(blocks, index, Finished(planned, view));
  }

  /** A call before the one that returned, or of a later request, reads nothing of it. */
  lemma {:induction false} ACallOutOfTheRequestStaysSettled(blocks: seq<Entry>, index: nat, stored: seq<Entry>, k: nat)
    requires index < |blocks| == |stored| && k < |blocks|
    requires forall j :: 0 <= j < |blocks| && j != index ==> stored[j] == blocks[j]
    requires blocks[index].ShellCall? && stored[index].ShellCall?
    requires k != index && HasLists(stored[k]) && SettledAt(blocks, k) && k !in LaterInRequest(stored, index)
    ensures SettledAt(stored, k)
  {
    assert index < RequestFrom(blocks, k) || k < index by {
      if index < k {
        var m :| index + 1 <= m < k && stored[m].Message?;
        assert blocks[m].Message?;
      }
    }
    APlanReadsTheWorkBeforeIt(blocks, stored, k, blocks[k].view.value, None);
  }

  // The order the calls return in.

  datatype Return = Return(view: View, directory: Option<Directory>)

  ghost predicate MayReturn(blocks: seq<Entry>, results: map<nat, Return>, order: seq<nat>) {
    && (forall k :: 0 <= k < |order| ==> order[k] in results)
    && (forall i :: i in results ==> i < |blocks| && blocks[i].ShellCall?)
  }

  /** The transcript after calls of it returned in an order. */
  function AfterReturns(blocks: seq<Entry>, results: map<nat, Return>, order: seq<nat>): (after: seq<Entry>)
    requires MayReturn(blocks, results, order)
    ensures |after| == |blocks|
    ensures forall k :: 0 <= k < |blocks| ==> (after[k].ShellCall? <==> blocks[k].ShellCall?)
    decreases |order|
  {
    if order == [] then blocks
    else
      var last := order[|order| - 1];
      var before := AfterReturns(blocks, results, order[..|order| - 1]);
      Completed(before, last, results[last].view, results[last].directory)
  }

  /** What a block holds once the calls in `returned` have returned, but for its lists. */
  ghost predicate HoldsWork(blocks: seq<Entry>, results: map<nat, Return>, returned: bool, k: nat, entry: Entry)
    requires k < |blocks|
  {
    if returned && k in results && blocks[k].ShellCall? then
      && HasLists(entry)
      && var view := results[k].view;
      SameWork(entry, ShellCall(blocks[k].run, Some(view.(files := CallFiles(view, results[k].directory)))))
    else
      && SameWork(entry, blocks[k]) && (HasLists(entry) <==> HasLists(blocks[k]))
      && (HasLists(entry) || entry == blocks[k])
  }

  lemma {:induction false} AReturnHoldsItsWork(
      blocks: seq<Entry>, results: map<nat, Return>, returned: bool, before: seq<Entry>,
                            last: nat, k: nat)
    requires InOrder(before) && last in results
    requires k < |blocks| == |before| && last < |blocks| && before[last].ShellCall? && blocks[last].ShellCall?
    requires HoldsWork(blocks, results, returned, k, before[k])
    ensures var after := Completed(before, last, results[last].view, results[last].directory);
            HoldsWork(blocks, results, returned || k == last, k, after[k])
  {
    var (view, directory) := (results[last].view, results[last].directory);
    ACompletionKeepsListsInOrder(before, last, view, directory);
    var finished := Finished(Plan(before, last, view, directory), view);
    var stored := WithView(before, last, finished);
    var after := Completed(before, last, view, directory);
    assert SameWork(stored[k], after[k]);
  }

  ghost predicate HoldsAll(blocks: seq<Entry>, results: map<nat, Return>, order: seq<nat>, after: seq<Entry>) {
    && |after| == |blocks|
    && forall k: nat {:trigger after[k]} :: k < |blocks| ==> HoldsWork(blocks, results, k in order, k, after[k])
  }

  lemma {:induction false} AReturnHoldsAllWork(
      blocks: seq<Entry>, results: map<nat, Return>, order: seq<nat>, before: seq<Entry>)
    requires InOrder(before) && order != [] && MayReturn(blocks, results, order)
    requires HoldsAll(blocks, results, order[..|order| - 1], before)
    requires before[order[|order| - 1]].ShellCall?
    ensures var last := order[|order| - 1];
            HoldsAll(blocks, results, order,
                     Completed(before, last, results[last].view, results[last].directory))
  {
    var (earlier, last) := (order[..|order| - 1], order[|order| - 1]);
    assert order == earlier + [last];
    ACompletionKeepsListsInOrder(before, last, results[last].view, results[last].directory);
    var after := Completed(before, last, results[last].view, results[last].directory);
    forall k: nat | k < |blocks| ensures HoldsWork(blocks, results, k in order, k, after[k]) {
      assert k in order <==> k in earlier || k == last;
      AReturnHoldsItsWork(blocks, results, k in earlier, before, last, k);
    }
  }

  lemma {:induction false} ReturnsKeepListsInOrder(blocks: seq<Entry>, results: map<nat, Return>, order: seq<nat>)
    requires InOrder(blocks) && MayReturn(blocks, results, order)
    ensures InOrder(AfterReturns(blocks, results, order))
    decreases |order|
  {
    if order != [] {
      var (earlier, last) := (order[..|order| - 1], order[|order| - 1]);
      ReturnsKeepListsInOrder(blocks, results, earlier);
      ACompletionKeepsListsInOrder(AfterReturns(blocks, results, earlier), last, results[last].view,
                                   results[last].directory);
    }
  }

  lemma {:induction false} ReturnsHoldTheirWork(blocks: seq<Entry>, results: map<nat, Return>, order: seq<nat>)
    requires InOrder(blocks) && MayReturn(blocks, results, order)
    ensures HoldsAll(blocks, results, order, AfterReturns(blocks, results, order))
    decreases |order|
  {
    if order == [] {
      NothingReturned(blocks, results);
    } else {
      var earlier := order[..|order| - 1];
      ReturnsHoldTheirWork(blocks, results, earlier);
      ReturnsKeepListsInOrder(blocks, results, earlier);
      AReturnHoldsAllWork(blocks, results, order, AfterReturns(blocks, results, earlier));
    }
  }

  lemma {:induction false} NothingReturned(blocks: seq<Entry>, results: map<nat, Return>)
    ensures HoldsAll(blocks, results, [], blocks)
  {
    forall k: nat | k < |blocks| ensures HoldsWork(blocks, results, k in [], k, blocks[k]) {
    }
  }

  /** Lists in order are determined by the calls' work. */
  lemma {:induction false} ListsInOrderAreDetermined(a: seq<Entry>, b: seq<Entry>)
    requires InOrder(a) && InOrder(b) && SameWorkAll(a, b) && SameListed(a, b)
    ensures a == b
  {
    forall k | 0 <= k < |a| ensures a[k] == b[k] {
      if HasLists(a[k]) {
        assert SameWork(a[k], b[k]) && SettledAt(a, k) && SettledAt(b, k);
        forall j | 0 <= j < k ensures a[j].Message? <==> b[j].Message? { assert SameWork(a[j], b[j]); }
        var (view, other) := (a[k].view.value, b[k].view.value);
        APlanReadsTheWorkBeforeIt(a, b, k, view, None);
        assert CallOf(view, view.files) == CallOf(other, other.files);
        assert CallFiles(view, None) == CallFiles(other, None);
        assert Plan(b, k, view, None) == Plan(b, k, other, None);
      }
    }
  }

  lemma {:induction false} SameReturnsHoldTheSameWork(
      blocks: seq<Entry>, results: map<nat, Return>, p: seq<nat>, q: seq<nat>,
                                   a: seq<Entry>, b: seq<Entry>)
    requires HoldsAll(blocks, results, p, a) && HoldsAll(blocks, results, q, b)
    requires forall i: nat :: i in p <==> i in q
    ensures SameWorkAll(a, b) && SameListed(a, b)
  {
    forall k: nat | k < |blocks|
      ensures SameWork(a[k], b[k]) && (HasLists(a[k]) <==> HasLists(b[k])) && (HasLists(a[k]) || a[k] == b[k])
    {
      assert HoldsWork(blocks, results, k in p, k, a[k]) && HoldsWork(blocks, results, k in q, k, b[k]);
    }
  }

  /** The calls of a transcript may return in any order: the lists they end with are the same. */
  lemma {:induction false} TheOrderOfReturnsDoesNotMatter(
      blocks: seq<Entry>, results: map<nat, Return>, p: seq<nat>, q: seq<nat>)
    requires InOrder(blocks) && MayReturn(blocks, results, p) && MayReturn(blocks, results, q)
    requires forall i: nat :: i in p <==> i in q
    ensures AfterReturns(blocks, results, p) == AfterReturns(blocks, results, q)
  {
    ReturnsKeepListsInOrder(blocks, results, p);
    ReturnsKeepListsInOrder(blocks, results, q);
    ReturnsHoldTheirWork(blocks, results, p);
    ReturnsHoldTheirWork(blocks, results, q);
    var (a, b) := (AfterReturns(blocks, results, p), AfterReturns(blocks, results, q));
    SameReturnsHoldTheSameWork(blocks, results, p, q, a, b);
    ListsInOrderAreDetermined(a, b);
  }

  /** They are those of planning each call after the calls before it in the transcript. */
  lemma {:induction false} EachListIsPlannedInTranscriptOrder(
      blocks: seq<Entry>, results: map<nat, Return>, order: seq<nat>, k: nat)
    requires InOrder(blocks) && MayReturn(blocks, results, order) && k in order
    ensures k < |blocks| && blocks[k].ShellCall?
    ensures var after := AfterReturns(blocks, results, order);
            after[k] == ShellCall(after[k].run,
                          Some(Finished(Plan(after, k, results[k].view, results[k].directory), results[k].view)))
  {
    ReturnsKeepListsInOrder(blocks, results, order);
    ReturnsHoldTheirWork(blocks, results, order);
    var after := AfterReturns(blocks, results, order);
    assert HoldsWork(blocks, results, k in order, k, after[k]) && SettledAt(after, k);
    var (view, directory) := (results[k].view, results[k].directory);
    OwnFilesKeepTheReport(view, directory);
    PlanningAgainKeepsOwnFiles(view, directory);
    var (own, stored) := (CallFiles(view, directory), after[k].view.value);
    assert CallFiles(stored, None) == CallFiles(view.(files := own), None);
    assert CallOf(stored, own) == CallOf(view, own);
    assert Plan(after, k, stored, None) == Plan(after, k, view, directory);
  }

  // Listing a stored transcript.

  predicate HasReturned(entry: Entry) {
    entry.ShellCall? && entry.view.Some?
  }

  /** The transcript with its first `n` blocks listed again, in order. */
  function RelistedUpTo(blocks: seq<Entry>, n: nat): (after: seq<Entry>)
    requires n <= |blocks|
    ensures |after| == |blocks| && after[n..] == blocks[n..]
    ensures forall k :: 0 <= k < n ==> (HasReturned(after[k]) <==> HasReturned(blocks[k]))
  {
    if n == 0 then blocks
    else
      var before := RelistedUpTo(blocks, n - 1);
      assert before[n - 1] == before[n - 1..][0] == blocks[n - 1..][0];
      assert before[n..] == before[n - 1..][1..] == blocks[n..];
      if HasReturned(blocks[n - 1]) then
        var view := blocks[n - 1].view.value;
        WithView(before, n - 1, Finished(Plan(before, n - 1, view, None), view))
      else before
  }

  ghost predicate InOrderUpTo(blocks: seq<Entry>, n: nat)
    requires n <= |blocks|
  {
    && (forall k :: 0 <= k < n && HasReturned(blocks[k]) ==>
                      HasLists(blocks[k]) && CallFiles(blocks[k].view.value, None) == blocks[k].view.value.files)
    && (forall k :: 0 <= k < n ==> SettledAt(blocks, k))
  }

  lemma {:induction false} RelistingTheNextKeepsThemInOrder(before: seq<Entry>, n: nat)
    requires n < |before| && InOrderUpTo(before, n) && HasReturned(before[n])
    ensures var view := before[n].view.value;
            InOrderUpTo(WithView(before, n, Finished(Plan(before, n, view, None), view)), n + 1)
  {
    var view := before[n].view.value;
    var after := WithView(before, n, Finished(Plan(before, n, view, None), view));
    AFinishedViewIsSettled(before, n, view, None);
    SameFinishedView(view, Plan(before, n, view, None), None);
    forall k | 0 <= k < n ensures SettledAt(after, k) {
      ALaterCallChangesNoEarlierList(before, after, n, k);
    }
  }

  lemma {:induction false} ALaterCallChangesNoEarlierList(before: seq<Entry>, after: seq<Entry>, n: nat, k: nat)
    requires k < n < |before| == |after| && before[..n] == after[..n]
    requires SettledAt(before, k)
    ensures SettledAt(after, k)
  {
    assert forall j :: 0 <= j < n ==> before[..n][j] == before[j] && after[..n][j] == after[j];
    if HasLists(after[k]) {
      APlanReadsTheWorkBeforeIt(before, after, k, before[k].view.value, None);
    }
  }

  lemma {:induction false} ANextWithoutAViewIsInOrder(before: seq<Entry>, n: nat)
    requires n < |before| && InOrderUpTo(before, n) && !HasReturned(before[n])
    ensures InOrderUpTo(before, n + 1)
  {
    assert SettledAt(before, n);
  }

  lemma {:induction false} RelistingTheNextSettlesIt(blocks: seq<Entry>, n: nat)
    requires 0 < n <= |blocks| && InOrderUpTo(RelistedUpTo(blocks, n - 1), n - 1)
    ensures InOrderUpTo(RelistedUpTo(blocks, n), n)
  {
    var before := RelistedUpTo(blocks, n - 1);
    assert before[n - 1] == before[n - 1..][0] == blocks[n - 1..][0];
    if HasReturned(blocks[n - 1]) {
      RelistingTheNextKeepsThemInOrder(before, n - 1);
    } else {
      ANextWithoutAViewIsInOrder(before, n - 1);
    }
  }

  /** Listing a stored transcript makes the lists a new one would store. */
  lemma {:induction false} RelistingAStoredTranscriptSettlesIt(blocks: seq<Entry>, n: nat)
    requires n <= |blocks|
    ensures InOrderUpTo(RelistedUpTo(blocks, n), n)
  {
    if n > 0 {
      RelistingAStoredTranscriptSettlesIt(blocks, n - 1);
      RelistingTheNextSettlesIt(blocks, n);
    }
  }

  lemma {:induction false} WhollyInOrder(blocks: seq<Entry>)
    requires InOrderUpTo(blocks, |blocks|)
    ensures InOrder(blocks)
  {
  }

  lemma {:induction false} ASettledCallStays(blocks: seq<Entry>, k: nat)
    requires k < |blocks| && HasLists(blocks[k]) && SettledAt(blocks, k)
    ensures WithView(blocks, k, PlannedAgain(blocks, k)) == blocks
  {
  }

  /** Listing one call again whose lists are in order changes nothing. */
  lemma {:induction false} RelistingOneInOrder(blocks: seq<Entry>, n: nat)
    requires InOrder(blocks) && 0 < n <= |blocks| && RelistedUpTo(blocks, n - 1) == blocks
    requires HasReturned(blocks[n - 1]) ==> HasLists(blocks[n - 1])
    ensures RelistedUpTo(blocks, n) == blocks
  {
    assert SettledAt(blocks, n - 1);
    if HasReturned(blocks[n - 1]) {
      ASettledCallStays(blocks, n - 1);
    }
  }

  /** Lists in order stay as they are when the transcript is listed again. */
  lemma {:induction false} RelistingListsInOrderChangesNothing(blocks: seq<Entry>, n: nat)
    requires InOrder(blocks) && n <= |blocks|
    requires forall k :: 0 <= k < |blocks| && HasReturned(blocks[k]) ==> HasLists(blocks[k])
    ensures RelistedUpTo(blocks, n) == blocks
  {
    if n > 0 {
      RelistingListsInOrderChangesNothing(blocks, n - 1);
      RelistingOneInOrder(blocks, n);
    }
  }
}
