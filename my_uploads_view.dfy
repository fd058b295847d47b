/**
 * The uploads view: the channel's persisted upload records with the
 * ephemeral status laid over them, grouped by parent, and the choice between
 * loading placeholders, one bar per group and the empty view.
 */
module MyUploadsView {
  import opened Wrappers
  import opened UploadTypes
  import opened Sequences
  import opened Grouping

  /** A record of the merged list: the persisted record with its shown status, and its progress. */
  datatype ViewRecord = ViewRecord(asset: AssetUpload, progress: real)

  /**
   * `filteredUploadStateWithProgress`: each record shows the ephemeral
   * progress, 0 without one, and the ephemeral status, falling back to the
   * persisted `lastStatus`; every other field of the record is kept.
   */
  function MergeStatus(records: seq<AssetUpload>, uploadsStatus: StatusStore): (r: seq<ViewRecord>)
    ensures |r| == |records|
    ensures forall i :: 0 <= i < |r| ==>
      var status := StatusOf(uploadsStatus, records[i].contentId);
      && r[i].asset.(lastStatus := records[i].lastStatus) == records[i]
      && r[i].progress == (if status.progress.Some? then status.progress.value else 0.0)
      && r[i].asset.lastStatus == (if status.lastStatus.Some? then status.lastStatus.value else records[i].lastStatus)
  {
    if |records| == 0 then []
    else
      var last := records[|records| - 1];
      var status := StatusOf(uploadsStatus, last.contentId);
      MergeStatus(records[..|records| - 1], uploadsStatus) +
        [ViewRecord(last.(lastStatus := status.lastStatus.GetOr(last.lastStatus)), status.progress.GetOr(0.0))]
  }

  /** After a reload the ephemeral store is empty: every record shows its persisted status and progress 0. */
  lemma ReloadShowsPersistedStatus(records: seq<AssetUpload>, i: nat)
    requires i < |records|
    ensures MergeStatus(records, map[])[i] == ViewRecord(records[i], 0.0)
  {
    var r := MergeStatus(records, map[]);
    assert r[i].asset == r[i].asset.(lastStatus := records[i].lastStatus);
  }

  // ----- Grouping -----------------------------------------------------------------

  function ParentIdOf(r: ViewRecord): string {
    r.asset.parentObject.id
  }

  /** The present entries of `entries`, in order. */
  function Present<T>(entries: seq<Option<T>>): (r: seq<T>)
    ensures |r| <= |entries|
  {
    if |entries| == 0 then []
    else
      var last := entries[|entries| - 1];
      Present(entries[..|entries| - 1]) + (if last.Some? then [last.value] else [])
  }

  /** A value is kept once for each entry holding it, so exactly the non-falsy entries are kept. */
  lemma {:induction false} PresentCount<T>(entries: seq<Option<T>>, x: T)
    ensures multiset(Present(entries))[x] == multiset(entries)[Some(x)]
    ensures x in Present(entries) <==> Some(x) in entries
  {
    if |entries| > 0 {
      PresentCount(entries[..|entries| - 1], x);
      assert entries == entries[..|entries| - 1] + [entries[|entries| - 1]];
    }
  }

  /** No entry is present exactly when none is `Some`. */
  lemma {:induction false} PresentEmpty<T>(entries: seq<Option<T>>)
    ensures |Present(entries)| == 0 <==> forall i :: 0 <= i < |entries| ==> entries[i].None?
  {
    if |entries| > 0 {
      var prefix := entries[..|entries| - 1];
      PresentEmpty(prefix);
      assert forall i :: 0 <= i < |prefix| ==> prefix[i] == entries[i];
    }
  }

  /** Every record wrapped as a present entry. */
  function Lift(records: seq<ViewRecord>): (r: seq<Option<ViewRecord>>)
    ensures |r| == |records|
    ensures forall i :: 0 <= i < |r| ==> r[i] == Some(records[i])
  {
    if |records| == 0 then [] else Lift(records[..|records| - 1]) + [Some(records[|records| - 1])]
  }

  /** Wrapping every record and keeping the present ones gives the records back. */
  lemma {:induction false} PresentLift(records: seq<ViewRecord>)
    ensures Present(Lift(records)) == records
  {
    if |records| > 0 {
      var prefix := records[..|records| - 1];
      PresentLift(prefix);
      assert Lift(records)[..|records| - 1] == Lift(prefix);
    }
  }

  /**
   * The `reduce` of `groupedUploadsState`: a falsy entry leaves the
   * accumulator as it is, any other is pushed onto the group of its parent id.
   */
  function GroupedUploads(entries: seq<Option<ViewRecord>>): seq<seq<ViewRecord>> {
    if |entries| == 0 then []
    else
      var acc := GroupedUploads(entries[..|entries| - 1]);
      match entries[|entries| - 1]
      case None => acc
      case Some(x) => AddToGroups(acc, x, ParentIdOf)
  }

  /** The fold skips the falsy entries and groups the others: it is the grouping of the present ones. */
  lemma {:induction false} GroupedUploadsSkipsFalsy(entries: seq<Option<ViewRecord>>)
    ensures GroupedUploads(entries) == GroupBy(Present(entries), ParentIdOf)
  {
    if |entries| > 0 {
      var prefix := entries[..|entries| - 1];
      GroupedUploadsSkipsFalsy(prefix);
      var p := Present(prefix);
      if entries[|entries| - 1].Some? {
        var x := entries[|entries| - 1].value;
        assert Present(entries) == p + [x];
        assert (p + [x])[..|p|] == p;
        assert GroupBy(p + [x], ParentIdOf) == AddToGroups(GroupBy(p, ParentIdOf), x, ParentIdOf);
      } else {
        assert Present(entries) == p;
      }
    }
  }

  /**
   * The groups partition the present records by parent id: each group is
   * non-empty and keeps the input order, all its members share the parent
   * id, and each present record lies in exactly one group, that of its id.
   */
  lemma GroupedUploadsPartition(entries: seq<Option<ViewRecord>>, x: ViewRecord, i: nat)
    ensures IsGroupingOf(GroupedUploads(entries), Present(entries), ParentIdOf)
    ensures x in Present(entries) ==>
      exists k: nat :: OnlyIn(GroupedUploads(entries), x, k) && ParentIdOf(GroupedUploads(entries)[k][0]) == ParentIdOf(x)
    ensures i < |GroupedUploads(entries)| ==>
      && |GroupedUploads(entries)[i]| > 0
      && IsSubsequence(GroupedUploads(entries)[i], Present(entries))
      && forall y :: y in GroupedUploads(entries)[i] ==> ParentIdOf(y) == ParentIdOf(GroupedUploads(entries)[i][0])
  {
    var s := Present(entries);
    var g := GroupedUploads(entries);
    GroupedUploadsSkipsFalsy(entries);
    GroupByIsGrouping(s, ParentIdOf);
    if x in s {
      GroupByPartition(s, ParentIdOf, x);
    }
    if i < |g| {
      GroupingMembers(g, s, ParentIdOf, i, g[i][0]);
      forall y | y in g[i] ensures ParentIdOf(y) == ParentIdOf(g[i][0]) {
        GroupingMembers(g, s, ParentIdOf, i, y);
      }
    }
  }

  /** `hasUploads` holds exactly when some entry is a record. */
  lemma HasUploadsIffSomeRecord(entries: seq<Option<ViewRecord>>)
    ensures |GroupedUploads(entries)| > 0 <==> exists i :: 0 <= i < |entries| && entries[i].Some?
  {
    GroupedUploadsSkipsFalsy(entries);
    GroupByIsGrouping(Present(entries), ParentIdOf);
    GroupingNonEmpty(GroupedUploads(entries), Present(entries), ParentIdOf);
    PresentEmpty(entries);
  }

  // ----- Display ------------------------------------------------------------------

  const PLACEHOLDER_COUNT: nat := 5

  /** An `AssetsGroupUploadBar`: its React key and the group it shows. */
  datatype UploadBar = UploadBar(key: string, uploadData: seq<ViewRecord>)

  datatype Display = Placeholders(count: nat) | GroupBars(bars: seq<UploadBar>) | EmptyUploads

  /** One bar per group, keyed by the parent id of the group's first record. */
  function Bars(groups: seq<seq<ViewRecord>>): (r: seq<UploadBar>)
    requires forall i :: 0 <= i < |groups| ==> |groups[i]| > 0
    ensures |r| == |groups|
    ensures forall i :: 0 <= i < |r| ==> r[i].uploadData == groups[i] && r[i].key == ParentIdOf(groups[i][0])
  {
    if |groups| == 0 then []
    else
      var last := groups[|groups| - 1];
      Bars(groups[..|groups| - 1]) + [UploadBar(ParentIdOf(last[0]), last)]
  }

  /** The three branches: placeholders while loading, else the bars when there are uploads, else the empty view. */
  function ChooseDisplay(isLoading: bool, groups: seq<seq<ViewRecord>>): (d: Display)
    requires forall i :: 0 <= i < |groups| ==> |groups[i]| > 0
    ensures isLoading ==> d == Placeholders(PLACEHOLDER_COUNT)
    ensures !isLoading && |groups| > 0 ==> d == GroupBars(Bars(groups)) && |d.bars| == |groups|
    ensures !isLoading && |groups| == 0 ==> d == EmptyUploads
  {
    if isLoading then Placeholders(PLACEHOLDER_COUNT)
    else if |groups| > 0 then GroupBars(Bars(groups))
    else EmptyUploads
  }

  /** The groups the view shows for the channel's records. */
  function ViewGroups(channelUploadsState: seq<AssetUpload>, uploadsStatus: StatusStore): seq<seq<ViewRecord>> {
    GroupedUploads(Lift(MergeStatus(channelUploadsState, uploadsStatus)))
  }

  /** Every group the view shows is non-empty, so its first record is defined. */
  lemma ViewGroupsNonEmpty(channelUploadsState: seq<AssetUpload>, uploadsStatus: StatusStore)
    ensures forall i :: 0 <= i < |ViewGroups(channelUploadsState, uploadsStatus)| ==>
      |ViewGroups(channelUploadsState, uploadsStatus)[i]| > 0
  {
    var entries := Lift(MergeStatus(channelUploadsState, uploadsStatus));
    GroupedUploadsSkipsFalsy(entries);
    GroupByIsGrouping(Present(entries), ParentIdOf);
  }

  /** The whole view body. */
  function MyUploadsView(isLoading: bool, channelUploadsState: seq<AssetUpload>, uploadsStatus: StatusStore): Display {
    ViewGroupsNonEmpty(channelUploadsState, uploadsStatus);
    ChooseDisplay(isLoading, ViewGroups(channelUploadsState, uploadsStatus))
  }

  /**
   * Not loading, the view shows bars exactly when the channel has upload
   * records, and then one bar per parent id holding every merged record of
   * that parent, in order.
   */
  lemma ViewShowsEveryRecord(channelUploadsState: seq<AssetUpload>, uploadsStatus: StatusStore, i: nat)
    requires i < |channelUploadsState|
    ensures var d := MyUploadsView(false, channelUploadsState, uploadsStatus);
      var x := MergeStatus(channelUploadsState, uploadsStatus)[i];
      && d.GroupBars?
      && exists k: nat :: k < |d.bars| && OnlyIn(ViewGroups(channelUploadsState, uploadsStatus), x, k)
                         && d.bars[k].uploadData == ViewGroups(channelUploadsState, uploadsStatus)[k]
                         && d.bars[k].key == channelUploadsState[i].parentObject.id
  {
    var merged := MergeStatus(channelUploadsState, uploadsStatus);
    var entries := Lift(merged);
    var g := ViewGroups(channelUploadsState, uploadsStatus);
    var x := merged[i];
    PresentLift(merged);
    ViewGroupsNonEmpty(channelUploadsState, uploadsStatus);
    GroupedUploadsPartition(entries, x, 0);
    var k: nat :| OnlyIn(g, x, k) && ParentIdOf(g[k][0]) == ParentIdOf(x);
    assert x.asset.parentObject == channelUploadsState[i].parentObject by {
      assert x.asset.(lastStatus := channelUploadsState[i].lastStatus) == channelUploadsState[i];
    }
    var d := MyUploadsView(false, channelUploadsState, uploadsStatus);
    assert d == GroupBars(Bars(g));
  }

  /** Without records, and not loading, the view is the empty view. */
  lemma NoRecordsShowsEmptyView(uploadsStatus: StatusStore)
    ensures MyUploadsView(false, [], uploadsStatus) == EmptyUploads
    ensures MyUploadsView(true, [], uploadsStatus) == Placeholders(PLACEHOLDER_COUNT)
  {
  }
}
