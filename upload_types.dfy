/**
 * The records shared by the upload manager, its older version and the
 * uploads view: asset descriptors, upload statuses, the ephemeral status
 * store and the snackbar requests the subsystem emits.
 */
module UploadTypes {
  import opened Wrappers

  /** `lastStatus` of an asset upload. */
  datatype AssetStatus = InProgress | Reconnecting | Completed | Error | ReconnectionError

  datatype ParentType = Video | Channel {
    /** The `parentObject.type` string. */
    function Name(): string {
      match this
      case Video => "video"
      case Channel => "channel"
    }
  }

  /** The channel or video an asset belongs to. */
  datatype ParentObject = ParentObject(parentType: ParentType, id: string)

  /** The descriptor passed to `startFileUpload`; `assetType` is the asset's own `type`. */
  datatype InputAssetUpload = InputAssetUpload(contentId: string, assetType: string, parentObject: ParentObject)

  /** A persisted upload record. */
  datatype AssetUpload = AssetUpload(
    contentId: string, assetType: string, parentObject: ParentObject, size: nat, lastStatus: AssetStatus)

  /** A file or blob handle chosen by the user; only its size is read. */
  datatype FileBlob = FileBlob(handle: nat, size: nat)

  /** One entry of the ephemeral status store; a missing field is `None`. */
  datatype UploadStatus = UploadStatus(progress: Option<real>, lastStatus: Option<AssetStatus>)

  type StatusStore = map<string, UploadStatus>

  /** The entry of `contentId`, all fields missing when there is none. */
  function StatusOf(store: StatusStore, contentId: string): UploadStatus {
    if contentId in store then store[contentId] else UploadStatus(None, None)
  }

  /** A `Partial<UploadStatus>` laid over an entry: the fields it holds replace the old ones. */
  function Patch(status: UploadStatus, partial: UploadStatus): UploadStatus {
    UploadStatus(
      if partial.progress.Some? then partial.progress else status.progress,
      if partial.lastStatus.Some? then partial.lastStatus else status.lastStatus)
  }

  /** `setUploadStatus(contentId, partial)`: merge `partial` into the entry of `contentId`. */
  function SetUploadStatus(store: StatusStore, contentId: string, partial: UploadStatus): StatusStore {
    store[contentId := Patch(StatusOf(store, contentId), partial)]
  }

  /**
   * `setUploadStatus` changes only the entry of `contentId`; there, each
   * field the partial holds replaces the old one and the others are kept.
   */
  lemma SetUploadStatusMerges(store: StatusStore, contentId: string, partial: UploadStatus, other: string)
    ensures var r := SetUploadStatus(store, contentId, partial);
      && r - {contentId} == store - {contentId}
      && (other != contentId ==> StatusOf(r, other) == StatusOf(store, other))
      && r[contentId].progress == (if partial.progress.Some? then partial.progress
                                   else StatusOf(store, contentId).progress)
      && r[contentId].lastStatus == (if partial.lastStatus.Some? then partial.lastStatus
                                     else StatusOf(store, contentId).lastStatus)
  {
  }

  /** A pending event as reported by the storage transport while a PUT is in flight. */
  datatype TransferEvent =
    | UploadProgress(progress: real)
    | RetryAttempt(attempt: nat, responseStatus: Option<int>)

  datatype IconType = Info | Success | Warning

  /** A `displaySnackbar` request; navigation callbacks are not modelled. */
  datatype Snackbar = Snackbar(
    title: string, description: Option<string>, actionText: Option<string>,
    iconType: IconType, customId: Option<string>)
}
