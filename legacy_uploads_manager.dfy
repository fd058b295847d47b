/**
 * The older upload manager: the projection that enriches the persisted
 * upload records with progress, remote judgement and video titles and groups
 * them by parent, and its `startFileUpload` with a five-retry PUT whose last
 * retry gives up with a reconnection error.
 */
module LegacyUploadsManager {
  import opened Wrappers
  import opened UploadTypes
  import opened Sequences
  import opened Grouping
  import Text

  // ----- Remote data the projection matches against ------------------------------

  /** `LiaisonJudgement` of a storage data object. */
  datatype Judgement = Pending | Accepted | Rejected

  datatype DataObject = DataObject(joystreamContentId: string, liaisonJudgement: Judgement, ipfsContentId: string)

  /** The active channel as fetched; either photo may be missing. */
  datatype Channel = Channel(avatarPhotoDataObject: Option<DataObject>, coverPhotoDataObject: Option<DataObject>)

  datatype Video = Video(title: Option<string>, mediaDataObject: Option<DataObject>,
                         thumbnailPhotoDataObject: Option<DataObject>)

  /**
   * An upload record as the projection hands it on: the record, its progress,
   * and the fields the later stages add (`None` while unset or undefined).
   */
  datatype ProjectedAsset = ProjectedAsset(
    asset: AssetUpload, progress: real, liaisonJudgement: Option<Judgement>,
    ipfsContentId: Option<string>, title: Option<string>)

  // ----- Progress ---------------------------------------------------------------

  /** `uploadsProgress[contentId] ?? 0`. */
  function ProgressOf(progress: map<string, real>, contentId: string): real {
    if contentId in progress then progress[contentId] else 0.0
  }

  /**
   * `uploadsStateWithProgress`: every record, in order, with the progress
   * recorded for it or 0 when none is.
   */
  function WithProgress(uploads: seq<AssetUpload>, progress: map<string, real>): (r: seq<ProjectedAsset>)
    ensures |r| == |uploads|
    ensures forall i :: 0 <= i < |r| ==>
      && r[i].asset == uploads[i]
      && r[i].progress == (if uploads[i].contentId in progress then progress[uploads[i].contentId] else 0.0)
      && r[i].liaisonJudgement.None? && r[i].ipfsContentId.None? && r[i].title.None?
  {
    if |uploads| == 0 then []
    else
      var last := uploads[|uploads| - 1];
      WithProgress(uploads[..|uploads| - 1], progress) +
        [ProjectedAsset(last, ProgressOf(progress, last.contentId), None, None, None)]
  }

  // ----- Data objects and their judgement -----------------------------------------

  /** `videos.flatMap(video => [video.mediaDataObject, video.thumbnailPhotoDataObject])`. */
  function VideoDataObjects(videos: seq<Video>): (r: seq<Option<DataObject>>)
    ensures |r| == 2 * |videos|
    ensures forall i :: 0 <= i < |videos| ==>
      r[2 * i] == videos[i].mediaDataObject && r[2 * i + 1] == videos[i].thumbnailPhotoDataObject
  {
    if |videos| == 0 then []
    else
      var last := videos[|videos| - 1];
      VideoDataObjects(videos[..|videos| - 1]) + [last.mediaDataObject, last.thumbnailPhotoDataObject]
  }

  /** `allDataObjects`: the channel's two photos, then two objects per fetched video. */
  function AllDataObjects(channel: Option<Channel>, videos: Option<seq<Video>>): seq<Option<DataObject>> {
    var avatar := if channel.Some? then channel.value.avatarPhotoDataObject else None;
    var cover := if channel.Some? then channel.value.coverPhotoDataObject else None;
    [avatar, cover] + VideoDataObjects(videos.GetOr([]))
  }

  predicate HasContentId(o: Option<DataObject>, contentId: string) {
    o.Some? && o.value.joystreamContentId == contentId
  }

  /** The index of the first data object of `contentId`, or `|objects|` when there is none. */
  function FirstWithContentId(objects: seq<Option<DataObject>>, contentId: string): (i: nat)
    ensures i <= |objects|
    ensures i < |objects| ==> HasContentId(objects[i], contentId)
    ensures forall j :: 0 <= j < i ==> !HasContentId(objects[j], contentId)
  {
    if |objects| == 0 then 0
    else if HasContentId(objects[0], contentId) then 0
    else 1 + FirstWithContentId(objects[1..], contentId)
  }

  /**
   * `allDataObjects.find(...)`: the first data object whose
   * `joystreamContentId` is `contentId`; `None` exactly when no object has it.
   */
  function FindDataObject(objects: seq<Option<DataObject>>, contentId: string): (r: Option<DataObject>)
    ensures r.None? <==> forall j :: 0 <= j < |objects| ==> !HasContentId(objects[j], contentId)
    ensures r.Some? ==> r.value.joystreamContentId == contentId && r == objects[FirstWithContentId(objects, contentId)]
  {
    var i := FirstWithContentId(objects, contentId);
    if i < |objects| then objects[i] else None
  }

  /**
   * `uploadsStateWithLiaisonJudgement`: each asset takes the judgement and
   * IPFS id of its first matching data object, both undefined without one;
   * all its other fields are kept.
   */
  function WithLiaisonJudgement(assets: seq<ProjectedAsset>, objects: seq<Option<DataObject>>): (r: seq<ProjectedAsset>)
    ensures |r| == |assets|
    ensures forall i :: 0 <= i < |r| ==>
      var o := FindDataObject(objects, assets[i].asset.contentId);
      && r[i].asset == assets[i].asset && r[i].progress == assets[i].progress && r[i].title == assets[i].title
      && r[i].liaisonJudgement == (if o.Some? then Some(o.value.liaisonJudgement) else None)
      && r[i].ipfsContentId == (if o.Some? then Some(o.value.ipfsContentId) else None)
  {
    if |assets| == 0 then []
    else
      var last := assets[|assets| - 1];
      var o := FindDataObject(objects, last.asset.contentId);
      WithLiaisonJudgement(assets[..|assets| - 1], objects) +
        [last.(liaisonJudgement := if o.Some? then Some(o.value.liaisonJudgement) else None,
               ipfsContentId := if o.Some? then Some(o.value.ipfsContentId) else None)]
  }

  /**
   * An asset's judgement comes from the channel photos first and then from
   * the videos' objects, in order; it stays undefined when nothing matches.
   */
  lemma JudgementFromFirstMatch(channel: Option<Channel>, videos: Option<seq<Video>>,
                                assets: seq<ProjectedAsset>, i: nat)
    requires i < |assets|
    ensures var objects := AllDataObjects(channel, videos);
      var r := WithLiaisonJudgement(assets, objects)[i];
      var k := FirstWithContentId(objects, assets[i].asset.contentId);
      && (r.liaisonJudgement.None? <==> k == |objects|)
      && (k < |objects| ==> r.liaisonJudgement == Some(objects[k].value.liaisonJudgement)
                              && objects[k].value.joystreamContentId == assets[i].asset.contentId)
  {
    var objects := AllDataObjects(channel, videos);
    var k := FirstWithContentId(objects, assets[i].asset.contentId);
    if k == |objects| {
      assert FindDataObject(objects, assets[i].asset.contentId).None?;
    }
  }

  // ----- Lost connections -----------------------------------------------------------

  predicate IsPendingAsset(a: ProjectedAsset) {
    a.liaisonJudgement == Some(Pending)
  }

  /** `lostConnectionAssets`: the assets whose judgement is `Pending`, in order. */
  function LostConnectionAssets(assets: seq<ProjectedAsset>): seq<ProjectedAsset> {
    Filter(assets, IsPendingAsset)
  }

  /**
   * The lost-connection list is exactly the pending assets: every member is
   * pending, every pending asset is a member, as many times as it occurs in
   * the input, and the input order is kept.
   */
  lemma LostConnectionAssetsArePending(assets: seq<ProjectedAsset>, x: ProjectedAsset)
    ensures x in LostConnectionAssets(assets) <==> x in assets && x.liaisonJudgement == Some(Pending)
    ensures IsSubsequence(LostConnectionAssets(assets), assets)
    ensures forall i :: 0 <= i < |LostConnectionAssets(assets)| ==>
      LostConnectionAssets(assets)[i].liaisonJudgement == Some(Pending)
    ensures multiset(LostConnectionAssets(assets))[x] == if IsPendingAsset(x) then multiset(assets)[x] else 0
  {
    FilterMembership(assets, IsPendingAsset, x);
    FilterCount(assets, IsPendingAsset, x);
    FilterIsSubsequence(assets, IsPendingAsset);
  }

  const LOST_CONNECTION_SUFFIX := " waiting to resume upload"

  /** `(N) Asset` or `(N) Assets`, then the suffix. */
  function LostConnectionTitle(n: nat): string {
    "(" + Text.NatToString(n) + ") Asset" + (if n > 1 then "s" else "") + LOST_CONNECTION_SUFFIX
  }

  /** The warning the effect shows for `n` lost assets: none when there are none. */
  function LostConnectionWarning(n: nat): (r: Option<Snackbar>)
    ensures r.None? <==> n == 0
    ensures r.Some? ==> && r.value.title == LostConnectionTitle(n)
                        && r.value.description == Some("Reconnect files to fix the issue")
                        && r.value.actionText == Some("See assets") && r.value.iconType == Warning
  {
    if n == 0 then None
    else Some(Snackbar(LostConnectionTitle(n), Some("Reconnect files to fix the issue"), Some("See assets"), Warning, None))
  }

  /** The warning's title names the count: different counts give different titles. */
  lemma LostConnectionTitleInjective(m: nat, n: nat)
    requires LostConnectionTitle(m) == LostConnectionTitle(n)
    ensures m == n
  {
    var a, b := Text.NatToString(m), Text.NatToString(n);
    var t := LostConnectionTitle(m);
    assert t == "(" + a + ")" + t[|a| + 2..];
    assert t == "(" + b + ")" + t[|b| + 2..];
    assert t[|a| + 1] == ')' && t[|b| + 1] == ')';
    assert |a| == |b|;
    assert a == t[1..|a| + 1] == b;
    Text.NatToStringInjective(m, n);
  }

  /** A single lost asset is named in the singular, more than one in the plural. */
  lemma LostConnectionTitlePlural(n: nat)
    requires n > 0
    ensures LostConnectionTitle(n) ==
      "(" + Text.NatToString(n) + ")" + (if n == 1 then " Asset" else " Assets") + LOST_CONNECTION_SUFFIX
  {
  }

  // ----- Video titles -----------------------------------------------------------------

  /** The index of the first video whose media object has `contentId`, or `|videos|`. */
  function FirstVideoWithMedia(videos: seq<Video>, contentId: string): (i: nat)
    ensures i <= |videos|
    ensures i < |videos| ==> HasContentId(videos[i].mediaDataObject, contentId)
    ensures forall j :: 0 <= j < i ==> !HasContentId(videos[j].mediaDataObject, contentId)
  {
    if |videos| == 0 then 0
    else if HasContentId(videos[0].mediaDataObject, contentId) then 0
    else 1 + FirstVideoWithMedia(videos[1..], contentId)
  }

  /** `videos?.find(...)?.title`. */
  function VideoTitle(videos: Option<seq<Video>>, contentId: string): Option<string> {
    if videos.None? then None
    else
      var i := FirstVideoWithMedia(videos.value, contentId);
      if i < |videos.value| then videos.value[i].title else None
  }

  /**
   * `uploadsStateWithVideoTitles`: a `video` asset takes the title of the
   * first video whose media object it is; every other asset is unchanged.
   */
  function WithVideoTitles(assets: seq<ProjectedAsset>, videos: Option<seq<Video>>): (r: seq<ProjectedAsset>)
    ensures |r| == |assets|
    ensures forall i :: 0 <= i < |r| ==>
      if assets[i].asset.assetType == "video" then r[i] == assets[i].(title := VideoTitle(videos, assets[i].asset.contentId))
      else r[i] == assets[i]
  {
    if |assets| == 0 then []
    else
      var last := assets[|assets| - 1];
      WithVideoTitles(assets[..|assets| - 1], videos) +
        [if last.asset.assetType == "video" then last.(title := VideoTitle(videos, last.asset.contentId)) else last]
  }

  // ----- Grouping -----------------------------------------------------------------

  function ParentIdOf(a: ProjectedAsset): string {
    a.asset.parentObject.id
  }

  /** `uploadsStateGroupedByParentObjectId`, groups in first-seen order. */
  function GroupByParentId(assets: seq<ProjectedAsset>): seq<seq<ProjectedAsset>> {
    GroupBy(assets, ParentIdOf)
  }

  /**
   * The grouping is a partition: every asset is in exactly one group, every
   * group is non-empty with one parent id, and each group keeps input order.
   */
  lemma GroupByParentIdPartitions(assets: seq<ProjectedAsset>, x: ProjectedAsset, i: nat)
    ensures IsGroupingOf(GroupByParentId(assets), assets, ParentIdOf)
    ensures x in assets ==>
      exists k: nat :: OnlyIn(GroupByParentId(assets), x, k) && ParentIdOf(GroupByParentId(assets)[k][0]) == ParentIdOf(x)
    ensures i < |GroupByParentId(assets)| ==>
      && |GroupByParentId(assets)[i]| > 0
      && IsSubsequence(GroupByParentId(assets)[i], assets)
      && forall y :: y in GroupByParentId(assets)[i] ==> ParentIdOf(y) == ParentIdOf(GroupByParentId(assets)[i][0])
  {
    var g := GroupByParentId(assets);
    GroupByIsGrouping(assets, ParentIdOf);
    if x in assets {
      GroupByPartition(assets, ParentIdOf, x);
    }
    if i < |g| {
      GroupingMembers(g, assets, ParentIdOf, i, g[i][0]);
      forall y | y in g[i] ensures ParentIdOf(y) == ParentIdOf(g[i][0]) {
        GroupingMembers(g, assets, ParentIdOf, i, y);
      }
    }
  }

  // ----- The whole projection ---------------------------------------------------------

  /** The enriched records, before grouping. */
  function Enriched(uploads: seq<AssetUpload>, progress: map<string, real>,
                    channel: Option<Channel>, videos: Option<seq<Video>>): seq<ProjectedAsset> {
    WithVideoTitles(WithLiaisonJudgement(WithProgress(uploads, progress), AllDataObjects(channel, videos)), videos)
  }

  /** The `uploadsState` the provider publishes. */
  function UploadsStateProjection(uploads: seq<AssetUpload>, progress: map<string, real>,
                                  channel: Option<Channel>, videos: Option<seq<Video>>): seq<seq<ProjectedAsset>> {
    GroupByParentId(Enriched(uploads, progress, channel, videos))
  }

  /**
   * Enrichment keeps every record, in order and unchanged, with its progress;
   * only `video` assets can gain a title.
   */
  lemma EnrichedKeepsRecords(uploads: seq<AssetUpload>, progress: map<string, real>,
                             channel: Option<Channel>, videos: Option<seq<Video>>, i: nat)
    requires i < |uploads|
    ensures var e := Enriched(uploads, progress, channel, videos);
      && |e| == |uploads|
      && e[i].asset == uploads[i]
      && e[i].progress == ProgressOf(progress, uploads[i].contentId)
      && (uploads[i].assetType != "video" ==> e[i].title.None?)
  {
    var p := WithProgress(uploads, progress);
    var l := WithLiaisonJudgement(p, AllDataObjects(channel, videos));
    assert l[i].asset == uploads[i] && l[i].title.None?;
  }

  /** Every record appears in exactly one published group, under its parent id. */
  lemma ProjectionPartitionsUploads(uploads: seq<AssetUpload>, progress: map<string, real>,
                                    channel: Option<Channel>, videos: Option<seq<Video>>, i: nat)
    requires i < |uploads|
    ensures var e := Enriched(uploads, progress, channel, videos);
      var groups := UploadsStateProjection(uploads, progress, channel, videos);
      exists k: nat :: OnlyIn(groups, e[i], k) && groups[k][0].asset.parentObject.id == uploads[i].parentObject.id
  {
    var e := Enriched(uploads, progress, channel, videos);
    EnrichedKeepsRecords(uploads, progress, channel, videos, i);
    GroupByPartition(e, ParentIdOf, e[i]);
    var k: nat :| OnlyIn(GroupBy(e, ParentIdOf), e[i], k) && ParentIdOf(GroupBy(e, ParentIdOf)[k][0]) == ParentIdOf(e[i]);
    assert UploadsStateProjection(uploads, progress, channel, videos) == GroupBy(e, ParentIdOf);
  }

  // ----- The five-retry transfer --------------------------------------------------------

  const RETRIES_COUNT: nat := 5
  const RECONNECTION_ERROR_MESSAGE := "Reconnection failed"

  /** How the awaited PUT settles: it resolves, or it rejects with an error carrying `message`. */
  datatype PutResult = Resolved | Thrown(message: string)

  const UPLOADED_SNACKBAR := Snackbar("Asset uploaded", None, None, Success, None)
  const RECONNECTION_SNACKBAR :=
    Snackbar("Asset failing to reconnect", Some("Host is not responding"), Some("Go to uploads"), Warning, None)

  /** The persisted upload records, the progress map and the snackbars shown. */
  datatype ManagerState = ManagerState(
    uploadsState: seq<AssetUpload>, uploadsProgress: map<string, real>, snackbars: seq<Snackbar>)

  /** `updateAsset(contentId, lastStatus)`: every record of `contentId` takes the status. */
  function UpdateAsset(records: seq<AssetUpload>, contentId: string, status: AssetStatus): (r: seq<AssetUpload>)
    ensures |r| == |records|
    ensures forall i :: 0 <= i < |r| ==>
      r[i] == if records[i].contentId == contentId then records[i].(lastStatus := status) else records[i]
  {
    if |records| == 0 then []
    else
      var last := records[|records| - 1];
      UpdateAsset(records[..|records| - 1], contentId, status) +
        [if last.contentId == contentId then last.(lastStatus := status) else last]
  }

  /** A later status update of the same asset overrides an earlier one. */
  lemma UpdateAssetOverrides(records: seq<AssetUpload>, contentId: string, first: AssetStatus, second: AssetStatus)
    ensures UpdateAsset(UpdateAsset(records, contentId, first), contentId, second) == UpdateAsset(records, contentId, second)
  {
    var a := UpdateAsset(UpdateAsset(records, contentId, first), contentId, second);
    var b := UpdateAsset(records, contentId, second);
    assert forall i :: 0 <= i < |a| ==> a[i] == b[i];
  }

  /** `addAsset` of the record with status `inProgress` and the file's size, then progress 0. */
  function StartTransfer(s: ManagerState, file: FileBlob, asset: InputAssetUpload): ManagerState {
    s.(uploadsState := s.uploadsState + [AssetUpload(asset.contentId, asset.assetType, asset.parentObject, file.size, InProgress)],
       uploadsProgress := s.uploadsProgress[asset.contentId := 0.0])
  }

  /** `onRetryAttempt`, up to the throw on the last attempt. */
  function RetryAttempted(s: ManagerState, contentId: string, attempt: nat): ManagerState {
    if attempt == 1 then s.(uploadsState := UpdateAsset(s.uploadsState, contentId, Reconnecting)) else s
  }

  /** `onUploadProgress`: back to `inProgress`, with the new progress. */
  function ProgressTicked(s: ManagerState, contentId: string, progress: real): ManagerState {
    s.(uploadsState := UpdateAsset(s.uploadsState, contentId, InProgress),
       uploadsProgress := s.uploadsProgress[contentId := progress])
  }

  /** The code after the awaited PUT, or the `catch` block. */
  function Settled(s: ManagerState, contentId: string, result: PutResult): ManagerState {
    match result
    case Resolved =>
      s.(uploadsState := UpdateAsset(s.uploadsState, contentId, Completed),
         uploadsProgress := s.uploadsProgress[contentId := 100.0],
         snackbars := s.snackbars + [UPLOADED_SNACKBAR])
    case Thrown(message) =>
      if message == RECONNECTION_ERROR_MESSAGE then
        s.(uploadsState := UpdateAsset(s.uploadsState, contentId, ReconnectionError),
           snackbars := s.snackbars + [RECONNECTION_SNACKBAR])
      else s.(uploadsState := UpdateAsset(s.uploadsState, contentId, Error))
  }

  /**
   * The PUT's callbacks in order, then its settlement; the callback of the
   * last retry attempt throws, so the PUT rejects there with the
   * reconnection error and no later callback runs.
   */
  function Transfer(s: ManagerState, contentId: string, events: seq<TransferEvent>, result: PutResult): ManagerState
    decreases |events|
  {
    if |events| == 0 then Settled(s, contentId, result)
    else
      match events[0]
      case UploadProgress(p) => Transfer(ProgressTicked(s, contentId, p), contentId, events[1..], result)
      case RetryAttempt(n, _) =>
        var s1 := RetryAttempted(s, contentId, n);
        if n == RETRIES_COUNT then Settled(s1, contentId, Thrown(RECONNECTION_ERROR_MESSAGE))
        else Transfer(s1, contentId, events[1..], result)
  }

  /** One whole `startFileUpload` call. */
  function Run(s: ManagerState, file: FileBlob, asset: InputAssetUpload, events: seq<TransferEvent>,
               result: PutResult): ManagerState {
    Transfer(StartTransfer(s, file, asset), asset.contentId, events, result)
  }

  predicate GivesUp(e: TransferEvent) {
    e.RetryAttempt? && e.attempt == RETRIES_COUNT
  }

  /**
   * The status a call ends in: `reconnectionError` once the last retry
   * attempt is reached or the error says so, `completed` when the PUT
   * resolves, `error` otherwise.
   */
  function FinalStatus(events: seq<TransferEvent>, result: PutResult): AssetStatus {
    if exists i :: 0 <= i < |events| && GivesUp(events[i]) then ReconnectionError
    else match result
      case Resolved => Completed
      case Thrown(message) => if message == RECONNECTION_ERROR_MESSAGE then ReconnectionError else Error
  }

  /** The snackbars a call adds for the status it ends in. */
  function FinalSnackbars(status: AssetStatus): seq<Snackbar> {
    if status == Completed then [UPLOADED_SNACKBAR]
    else if status == ReconnectionError then [RECONNECTION_SNACKBAR]
    else []
  }

  /** A callback that does not give up leaves the final status to the ones after it. */
  lemma FinalStatusAfterHead(events: seq<TransferEvent>, result: PutResult)
    requires |events| > 0 && !GivesUp(events[0])
    ensures FinalStatus(events[1..], result) == FinalStatus(events, result)
  {
    var rest := events[1..];
    if exists i :: 0 <= i < |events| && GivesUp(events[i]) {
      var i :| 0 <= i < |events| && GivesUp(events[i]);
      assert GivesUp(rest[i - 1]);
    }
    if exists i :: 0 <= i < |rest| && GivesUp(rest[i]) {
      var i :| 0 <= i < |rest| && GivesUp(rest[i]);
      assert GivesUp(events[i + 1]);
    }
  }

  /**
   * Whatever the callbacks, the transfer leaves every record of the asset in
   * its final status, touches no other record, and shows the one snackbar
   * that status calls for (none for a plain error).
   */
  lemma {:induction false} TransferEndsInFinalStatus(s: ManagerState, contentId: string,
                                                     events: seq<TransferEvent>, result: PutResult)
    ensures var r := Transfer(s, contentId, events, result);
      && r.uploadsState == UpdateAsset(s.uploadsState, contentId, FinalStatus(events, result))
      && r.snackbars == s.snackbars + FinalSnackbars(FinalStatus(events, result))
    decreases |events|
  {
    if |events| > 0 {
      var e := events[0];
      var status := FinalStatus(events, result);
      if GivesUp(e) {
        var s1 := RetryAttempted(s, contentId, e.attempt);
        assert Transfer(s, contentId, events, result) == Settled(s1, contentId, Thrown(RECONNECTION_ERROR_MESSAGE));
        assert status == ReconnectionError;
      } else {
        var s1 := if e.UploadProgress? then ProgressTicked(s, contentId, e.progress) else RetryAttempted(s, contentId, e.attempt);
        assert Transfer(s, contentId, events, result) == Transfer(s1, contentId, events[1..], result);
        FinalStatusAfterHead(events, result);
        TransferEndsInFinalStatus(s1, contentId, events[1..], result);
        if e.UploadProgress? {
          UpdateAssetOverrides(s.uploadsState, contentId, InProgress, status);
        } else if e.attempt == 1 {
          UpdateAssetOverrides(s.uploadsState, contentId, Reconnecting, status);
        }
      }
    }
  }

  /** The transfer changes the progress of no other asset, and a completed asset ends at 100. */
  lemma {:induction false} TransferProgress(s: ManagerState, contentId: string,
                                            events: seq<TransferEvent>, result: PutResult)
    ensures var r := Transfer(s, contentId, events, result);
      && r.uploadsProgress - {contentId} == s.uploadsProgress - {contentId}
      && (FinalStatus(events, result) == Completed ==>
            contentId in r.uploadsProgress && r.uploadsProgress[contentId] == 100.0)
    decreases |events|
  {
    if |events| > 0 {
      var e := events[0];
      if GivesUp(e) {
        assert FinalStatus(events, result) == ReconnectionError;
      } else {
        var s1 := if e.UploadProgress? then ProgressTicked(s, contentId, e.progress) else RetryAttempted(s, contentId, e.attempt);
        assert Transfer(s, contentId, events, result) == Transfer(s1, contentId, events[1..], result);
        assert s1.uploadsProgress - {contentId} == s.uploadsProgress - {contentId};
        FinalStatusAfterHead(events, result);
        TransferProgress(s1, contentId, events[1..], result);
      }
    }
  }

  /**
   * A call adds exactly one record, the asset with status `inProgress` and
   * the file's size, at the end; it then ends in its final status.
   */
  lemma RunAddsRecord(s: ManagerState, file: FileBlob, asset: InputAssetUpload, events: seq<TransferEvent>,
                      result: PutResult)
    ensures var r := Run(s, file, asset, events, result);
      var status := FinalStatus(events, result);
      && |r.uploadsState| == |s.uploadsState| + 1
      && r.uploadsState[|s.uploadsState|] ==
           AssetUpload(asset.contentId, asset.assetType, asset.parentObject, file.size, status)
      && (forall i :: 0 <= i < |s.uploadsState| && s.uploadsState[i].contentId != asset.contentId ==>
            r.uploadsState[i] == s.uploadsState[i])
      && r.snackbars == s.snackbars + FinalSnackbars(status)
      && r.uploadsProgress - {asset.contentId} == s.uploadsProgress - {asset.contentId}
      && (status == Completed ==> asset.contentId in r.uploadsProgress && r.uploadsProgress[asset.contentId] == 100.0)
  {
    var s0 := StartTransfer(s, file, asset);
    assert s0.uploadsProgress - {asset.contentId} == s.uploadsProgress - {asset.contentId};
    TransferEndsInFinalStatus(s0, asset.contentId, events, result);
    TransferProgress(s0, asset.contentId, events, result);
  }

  /**
   * Reaching the last retry attempt, whatever the response to it, always ends
   * the call in `reconnectionError` with the warning, however the PUT settles.
   */
  lemma LastRetryGivesUp(s: ManagerState, file: FileBlob, asset: InputAssetUpload, events: seq<TransferEvent>,
                         result: PutResult, i: nat)
    requires i < |events| && events[i].RetryAttempt? && events[i].attempt == RETRIES_COUNT
    ensures FinalStatus(events, result) == ReconnectionError
    ensures var r := Run(s, file, asset, events, result);
      && |r.uploadsState| == |s.uploadsState| + 1
      && r.uploadsState[|s.uploadsState|].lastStatus == ReconnectionError
      && r.snackbars == s.snackbars + [RECONNECTION_SNACKBAR]
  {
    assert GivesUp(events[i]);
    RunAddsRecord(s, file, asset, events, result);
  }

  /**
   * A successful PUT ends at progress 100; a failed one leaves the progress
   * where the last tick put it.
   */
  lemma SettledProgress(s: ManagerState, contentId: string, result: PutResult)
    ensures var r := Settled(s, contentId, result);
      && (result.Resolved? ==> r.uploadsProgress == s.uploadsProgress[contentId := 100.0])
      && (result.Thrown? ==> r.uploadsProgress == s.uploadsProgress)
  {
  }

  /** The upload manager's store slice, progress state and snackbar queue. */
  class UploadManager {
    var uploadsState: seq<AssetUpload>
    var uploadsProgress: map<string, real>
    var snackbars: seq<Snackbar>

    function State(): ManagerState
      reads this
    {
      ManagerState(uploadsState, uploadsProgress, snackbars)
    }

    /** On mount: the store's records as they are (possibly persisted), no progress and no snackbars. */
    constructor (uploadsState: seq<AssetUpload>)
      ensures State() == ManagerState(uploadsState, map[], [])
    {
      this.uploadsState, uploadsProgress, snackbars := uploadsState, map[], [];
    }

    /** `updateAsset` on the store. */
    method SetAssetStatus(contentId: string, status: AssetStatus)
      modifies this`uploadsState
      ensures uploadsState == UpdateAsset(old(uploadsState), contentId, status)
    {
      uploadsState := UpdateAsset(uploadsState, contentId, status);
    }

    /** `setAssetUploadProgress`. */
    method SetAssetUploadProgress(contentId: string, progress: real)
      modifies this`uploadsProgress
      ensures uploadsProgress == old(uploadsProgress)[contentId := progress]
    {
      uploadsProgress := uploadsProgress[contentId := progress];
    }

    /** The `try` block up to the PUT. */
    method BeginTransfer(file: FileBlob, asset: InputAssetUpload)
      modifies this
      ensures State() == StartTransfer(old(State()), file, asset)
    {
      uploadsState := uploadsState + [AssetUpload(asset.contentId, asset.assetType, asset.parentObject, file.size, InProgress)];
      SetAssetUploadProgress(asset.contentId, 0.0);
    }

    /** `onRetryAttempt`; `raised` says the callback threw the reconnection error. */
    method OnRetryAttempt(contentId: string, attempt: nat) returns (raised: bool)
      modifies this`uploadsState
      ensures raised <==> attempt == RETRIES_COUNT
      ensures State() == RetryAttempted(old(State()), contentId, attempt)
    {
      if attempt == 1 {
        SetAssetStatus(contentId, Reconnecting);
      }
      raised := attempt == RETRIES_COUNT;
    }

    /** `onUploadProgress`. */
    method OnUploadProgress(contentId: string, progress: real)
      modifies this
      ensures State() == ProgressTicked(old(State()), contentId, progress)
    {
      SetAssetStatus(contentId, InProgress);
      SetAssetUploadProgress(contentId, progress);
    }

    /** The end of the `try` block, or the `catch` block. */
    method Settle(contentId: string, result: PutResult)
      modifies this
      ensures State() == Settled(old(State()), contentId, result)
    {
      match result
      case Resolved =>
        SetAssetStatus(contentId, Completed);
        SetAssetUploadProgress(contentId, 100.0);
        snackbars := snackbars + [UPLOADED_SNACKBAR];
      case Thrown(message) =>
        if message == RECONNECTION_ERROR_MESSAGE {
          SetAssetStatus(contentId, ReconnectionError);
          snackbars := snackbars + [RECONNECTION_SNACKBAR];
        } else {
          SetAssetStatus(contentId, Error);
        }
    }

    /**
     * One whole `startFileUpload` call: the PUT's callbacks arrive as
     * `events`, in order, until one throws; otherwise the PUT settles with
     * `result`.
     */
    method StartFileUpload(file: FileBlob, asset: InputAssetUpload, events: seq<TransferEvent>, result: PutResult)
      modifies this
      ensures State() == Run(old(State()), file, asset, events, result)
    {
      ghost var goal := Run(State(), file, asset, events, result);
      BeginTransfer(file, asset);
      var cid := asset.contentId;
      var i := 0;
      var raised := false;
      while i < |events| && !raised
        invariant 0 <= i <= |events|
        invariant !raised ==> Transfer(State(), cid, events[i..], result) == goal
        invariant raised ==> Settled(State(), cid, Thrown(RECONNECTION_ERROR_MESSAGE)) == goal
        decreases |events| - i
      {
        assert events[i..][1..] == events[i + 1..];
        match events[i] {
          case UploadProgress(p) =>
            OnUploadProgress(cid, p);
          case RetryAttempt(n, _) =>
            raised := OnRetryAttempt(cid, n);
        }
        i := i + 1;
      }
      if raised {
        Settle(cid, Thrown(RECONNECTION_ERROR_MESSAGE));
      } else {
        Settle(cid, result);
      }
    }
  }
}
