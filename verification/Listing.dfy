/** How the lists are made: in place, over the calls before one (crates/agent-store/src/changes.rs). */
module Listing {
  import opened Wrappers
  import opened Paths
  import opened FileTracking
  import opened Trackings
  import opened ChangedLists
  import opened Confluence

  /** A call's own files: those its job wrote, then its changes, each with its mark. */
  method OwnFiles(view: View, directory: Option<Directory>) returns (files: seq<EditedFile>)
    ensures files == CallFiles(view, directory)
  {
    ghost var reported := WrittenFiles(view.files);
    files := WrittenFiles(view.files);
    var written := |files|;
    for k := 0 to |view.changes|
      invariant files == WithChanges(reported, view.changes[..k])
    {
      assert view.changes[..k + 1][..k] == view.changes[..k];
      var file := ChangedTo(view.changes[k]);
      if !Names(files[..written], file.path) {
        files := NotAt(files, file.path) + [file];
      }
    }
    assert view.changes[..|view.changes|] == view.changes;
    ghost var raw := files;
    for k := 0 to |files|
      invariant |files| == |raw|
      invariant forall j :: 0 <= j < k ==> files[j] == MarkedFiles(view.files, directory, raw)[j]
      invariant forall j :: k <= j < |files| ==> files[j] == raw[j]
    {
      files := files[k := files[k].(outside := MarkOf(view.files, directory, files[k].path))];
    }
    assert files == MarkedFiles(view.files, directory, raw);
  }

  lemma {:induction false} FollowedOneMore(calls: seq<Call>, call: Call)
    ensures Followed(calls + [call]) == AfterCall(Followed(calls), call.id, call.report, call.changes, call.own)
  {
    assert (calls + [call])[..|calls|] == calls;
  }

  method AddCall(tracking: Tracking, call: Call)
    modifies tracking
    ensures tracking.Now() == AfterCall(old(tracking.Now()), call.id, call.report, call.changes, call.own)
  {
    tracking.Add(call.id, call.report, call.changes, call.own);
  }

  /** Follows calls one after the other. */
  method Follow(calls: seq<Call>) returns (tracking: Tracking)
    ensures fresh(tracking) && tracking.Now() == Followed(calls)
  {
    tracking := new Tracking();
    for k := 0 to |calls|
      invariant fresh(tracking) && tracking.Now() == Followed(calls[..k])
    {
      assert calls[..k + 1] == calls[..k] + [calls[k]];
      FollowedOneMore(calls[..k], calls[k]);
      AddCall(tracking, calls[k]);
    }
    assert calls[..|calls|] == calls;
  }

  /** Plans the lists of the call at `index`: the request's calls up to it, and those of its run. */
  method PlanLists(blocks: seq<Entry>, index: nat, view: View, directory: Option<Directory>)
    returns (planned: Planned)
    requires index < |blocks| && blocks[index].ShellCall?
    ensures planned == Plan(blocks, index, view, directory)
  {
    var start := RequestStart(blocks, index);
    var from := if start.Some? then start.value else 0;
    var request := Follow(CallsBefore(blocks, from, index, None));
    var runs := Follow(CallsBefore(blocks, from, index, Some(blocks[index].run)));
    var own := OwnFiles(view, directory);
    var call := CallOf(view, own);
    FollowedOneMore(CallsBefore(blocks, from, index, None), call);
    FollowedOneMore(CallsBefore(blocks, from, index, Some(blocks[index].run)), call);
    AddCall(request, call);
    AddCall(runs, call);
    planned := Planned(own, Listed(runs.files), if start.Some? then Some(Listed(request.files)) else None);
  }

  /** Gives each shell call of a stored transcript its lists, in order. */
  method Relist(blocks: array<Entry>)
    modifies blocks
    ensures blocks[..] == RelistedUpTo(old(blocks[..]), blocks.Length)
    ensures InOrder(blocks[..])
  {
    ghost var stored := blocks[..];
    for index := 0 to blocks.Length
      invariant blocks[..] == RelistedUpTo(stored, index)
    {
      assert blocks[..][index..][0] == stored[index..][0];
      if HasReturned(blocks[index]) {
        var view := blocks[index].view.value;
        var planned := PlanLists(blocks[..], index, view, None);
        ghost var before := blocks[..];
        blocks[index] := ShellCall(blocks[index].run, Some(Finished(planned, view)));
        assert blocks[..] == WithView(before, index, Finished(planned, view));
      }
    }
    RelistingAStoredTranscriptSettlesIt(stored, blocks.Length);
    WhollyInOrder(blocks[..]);
  }
}
