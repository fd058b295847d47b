/**
 * The upload orchestrator of the uploads provider: one `startFileUpload`
 * call resolves a storage provider, resolves the payload, records the asset,
 * bumps the notification counters, issues one PUT under a fixed retry policy
 * and ends the asset in `completed` or `error`. The two debounced snackbars
 * are flushed by explicit calls.
 */
module StartFileUpload {
  import opened Wrappers
  import opened UploadTypes
  import Text

  // ----- Retry policy -------------------------------------------------------

  /** `retry` and `noResponseRetries` of the retry configuration. */
  const RETRIES_COUNT: nat := 3

  /** `statusCodesToRetry`: inclusive ranges of response statuses worth retrying. */
  const STATUS_CODES_TO_RETRY: seq<(int, int)> := [(100, 199), (400, 400), (429, 429), (500, 599)]

  function InRanges(code: int, ranges: seq<(int, int)>): bool {
    |ranges| > 0 && ((ranges[0].0 <= code <= ranges[0].1) || InRanges(code, ranges[1..]))
  }

  /** A response status is retried iff it is informational, 400, 429 or a server error. */
  function IsRetriedStatus(code: int): (r: bool)
    ensures r <==> (100 <= code <= 199 || code == 400 || code == 429 || 500 <= code <= 599)
  {
    var last := [(500, 599)];
    assert InRanges(code, last) <==> 500 <= code <= 599 by { assert last[1..] == []; }
    assert InRanges(code, [(429, 429)] + last) <==> code == 429 || 500 <= code <= 599 by {
      assert ([(429, 429)] + last)[1..] == last;
    }
    assert InRanges(code, [(400, 400), (429, 429)] + last) <==> code == 400 || code == 429 || 500 <= code <= 599 by {
      assert ([(400, 400), (429, 429)] + last)[1..] == [(429, 429)] + last;
    }
    assert STATUS_CODES_TO_RETRY[1..] == [(400, 400), (429, 429)] + last;
    InRanges(code, STATUS_CODES_TO_RETRY)
  }

  /** A failed attempt may be retried: no response at all, or a retried status. */
  predicate Retryable(responseStatus: Option<int>) {
    responseStatus.None? || IsRetriedStatus(responseStatus.value)
  }

  /** The retry decision after `retriesDone` retries. */
  predicate ShouldRetry(responseStatus: Option<int>, retriesDone: nat) {
    retriesDone < RETRIES_COUNT && Retryable(responseStatus)
  }

  /** The error that reaches the `catch` block. */
  datatype UploadError =
    | AxiosError(responseStatus: Option<int>)
    | PlainError(message: string)

  /** How the PUT (with its retries) settled. */
  datatype TransferResult = Delivered | Rejected(error: UploadError)

  /** The number of retries the transport reported. */
  function RetryCount(events: seq<TransferEvent>): (n: nat)
    ensures n <= |events|
  {
    if |events| == 0 then 0
    else (if events[0].RetryAttempt? then 1 else 0) + RetryCount(events[1..])
  }

  /** After `done` retries, every further retry is numbered in sequence and allowed by the policy. */
  ghost predicate RetriesFollowPolicy(events: seq<TransferEvent>, done: nat)
    decreases |events|
  {
    |events| == 0 ||
    match events[0]
    case UploadProgress(_) => RetriesFollowPolicy(events[1..], done)
    case RetryAttempt(n, status) =>
      n == done + 1 && ShouldRetry(status, done) && RetriesFollowPolicy(events[1..], done + 1)
  }

  /**
   * What the transport can report for one PUT under the retry policy: retries
   * numbered 1, 2, ... each allowed by the policy, and a rejection only with an
   * error the policy declined to retry.
   */
  ghost predicate WellFormedRun(events: seq<TransferEvent>, result: TransferResult) {
    && RetriesFollowPolicy(events, 0)
    && (result.Rejected? ==>
          result.error.AxiosError? && !ShouldRetry(result.error.responseStatus, RetryCount(events)))
  }

  lemma {:induction false} RetriesWithinBudget(events: seq<TransferEvent>, done: nat)
    requires RetriesFollowPolicy(events, done) && done <= RETRIES_COUNT
    ensures done + RetryCount(events) <= RETRIES_COUNT
  {
    if |events| > 0 {
      match events[0]
      case UploadProgress(_) => RetriesWithinBudget(events[1..], done);
      case RetryAttempt(_, _) => RetriesWithinBudget(events[1..], done + 1);
    }
  }

  /** A PUT is retried at most three times, whatever the transport reports. */
  lemma RetryBudget(events: seq<TransferEvent>, result: TransferResult)
    requires WellFormedRun(events, result)
    ensures RetryCount(events) <= RETRIES_COUNT
  {
    RetriesWithinBudget(events, 0);
  }

  /**
   * A host that keeps answering with a retried status (say 503) is retried
   * exactly three times, and the final error is not a network failure.
   */
  lemma PersistentServerError(events: seq<TransferEvent>, code: int)
    requires IsRetriedStatus(code)
    requires WellFormedRun(events, Rejected(AxiosError(Some(code))))
    ensures RetryCount(events) == RETRIES_COUNT
    ensures !IsNetworkFailure(AxiosError(Some(code)))
  {
    RetryBudget(events, Rejected(AxiosError(Some(code))));
  }

  /** A host that never answers is retried exactly three times and is a network failure. */
  lemma PersistentNoResponse(events: seq<TransferEvent>)
    requires WellFormedRun(events, Rejected(AxiosError(None)))
    ensures RetryCount(events) == RETRIES_COUNT
    ensures IsNetworkFailure(AxiosError(None))
  {
    RetryBudget(events, Rejected(AxiosError(None)));
  }

  // ----- Failure classification -----------------------------------------------

  /**
   * `networkFailure`, as written: an axios error whose response status is
   * missing or zero, or lies below 400 and at or above 500. The last
   * disjunct holds of no status, so only a missing or zero status counts.
   */
  function IsNetworkFailure(e: UploadError): (r: bool)
    ensures r <==> e.AxiosError? && (e.responseStatus.None? || e.responseStatus.value == 0)
  {
    e.AxiosError? &&
    (e.responseStatus.None? || e.responseStatus.value == 0 ||
     (e.responseStatus.value < 400 && e.responseStatus.value >= 500))
  }

  const HOST_NOT_RESPONDING := "Host is not responding"
  const UNEXPECTED_ERROR := "Unexpected error occurred"
  const MISSING_FILE_MESSAGE := "File was not provided nor found"

  function FailureDescription(e: UploadError): (d: string)
    ensures d == HOST_NOT_RESPONDING <==> IsNetworkFailure(e)
    ensures d == UNEXPECTED_ERROR <==> !IsNetworkFailure(e)
  {
    if IsNetworkFailure(e) then HOST_NOT_RESPONDING else UNEXPECTED_ERROR
  }

  /** The warning shown whenever an upload fails. */
  function FailureSnackbar(e: UploadError): Snackbar {
    Snackbar("Failed to upload asset", Some(FailureDescription(e)), Some("Go to uploads"), Warning, None)
  }

  // ----- Notification texts -------------------------------------------------

  const SINGLE_UPLOADING_TITLE := "Asset being uploaded"
  const UPLOADING_SUFFIX := " assets being uploaded"

  function UploadingTitle(n: nat): string {
    if n > 1 then Text.NatToString(n) + UPLOADING_SUFFIX else SINGLE_UPLOADING_TITLE
  }

  /** Two uploading notifications with the same title report the same positive count. */
  lemma UploadingTitleInjective(m: nat, n: nat)
    requires m >= 1 && n >= 1
    requires UploadingTitle(m) == UploadingTitle(n)
    ensures m == n
  {
    if m > 1 && n > 1 {
      var a, b := Text.NatToString(m), Text.NatToString(n);
      assert |a| == |b| by {
        assert |a + UPLOADING_SUFFIX| == |b + UPLOADING_SUFFIX|;
      }
      assert a == (a + UPLOADING_SUFFIX)[..|a|];
      Text.NatToStringInjective(m, n);
    }
  }

  function UploadingSnackbar(n: nat): Snackbar {
    Snackbar(UploadingTitle(n), None, Some("See"), Info, None)
  }

  function UploadedTitle(uploaded: nat, uploads: nat): string {
    Text.NatToString(uploaded) + "/" + Text.NatToString(uploads) + " assets uploaded"
  }

  /** The uploaded notification's title gives back both counts it was built from. */
  lemma UploadedTitleInjective(done1: nat, total1: nat, done2: nat, total2: nat)
    requires UploadedTitle(done1, total1) == UploadedTitle(done2, total2)
    ensures done1 == done2 && total1 == total2
  {
    var a1, b1 := Text.NatToString(done1), Text.NatToString(total1);
    var a2, b2 := Text.NatToString(done2), Text.NatToString(total2);
    var t := UploadedTitle(done1, total1);
    assert t == a1 + "/" + t[|a1| + 1..];
    assert t == a2 + "/" + t[|a2| + 1..];
    assert t[|a1|] == '/' && t[|a2|] == '/';
    assert |a1| == |a2|;
    assert a1 == t[..|a1|] == a2;
    assert |b1| == |b2|;
    assert b1 == t[|a1| + 1..|a1| + 1 + |b1|] == b2;
    Text.NatToStringInjective(done1, done2);
    Text.NatToStringInjective(total1, total2);
  }

  function UploadedSnackbar(key: string, uploaded: nat, uploads: nat): Snackbar {
    Snackbar(UploadedTitle(uploaded, uploads), None, Some("See"), Success, Some(key))
  }

  // ----- Counters -----------------------------------------------------------

  /** The counter key of a parent object: `${type}-${id}`. */
  function AssetKey(p: ParentObject): string {
    p.parentType.Name() + "-" + p.id
  }

  /** Distinct parents never share a counter. */
  lemma AssetKeyInjective(p: ParentObject, q: ParentObject)
    ensures AssetKey(p) == AssetKey(q) ==> p == q
  {
    var a, b := AssetKey(p), AssetKey(q);
    assert a[0] == p.parentType.Name()[0] && b[0] == q.parentType.Name()[0];
    if a == b && p.parentType == q.parentType {
      var n := |p.parentType.Name()| + 1;
      assert p.id == a[n..] && q.id == b[n..];
    }
  }

  /** `dict[key] || 0`. */
  function Count(m: map<string, nat>, key: string): nat {
    if key in m then m[key] else 0
  }

  // ----- The orchestrator's state -----------------------------------------------

  datatype UploadOptions = UploadOptions(isReUpload: bool, changeHost: bool)

  datatype StorageProvider = StorageProvider(id: string, url: string)

  /** A PUT issued to `{url}/{contentId}`; `body` is `None` for an undefined payload. */
  datatype PutRequest = PutRequest(storageUrl: string, contentId: string, body: Option<FileBlob>)

  /** The record passed to `addAsset`: the descriptor and the file size. */
  datatype AddedAsset = AddedAsset(asset: InputAssetUpload, size: nat)

  /** A PUT in flight: the asset, its counter key and the provider used. */
  datatype Transfer = Transfer(contentId: string, key: string, providerId: string)

  /**
   * Everything one `startFileUpload` reads or changes: the status store, the
   * asset list, the blob store, the notification counters and their pending
   * debounced calls, provider health, and the snackbars and PUTs issued.
   */
  datatype UploaderState = UploaderState(
    uploadsStatus: StatusStore,
    assets: seq<AddedAsset>,
    assetsFiles: map<string, FileBlob>,
    pendingUploadingCount: nat,
    uploads: map<string, nat>,
    uploaded: map<string, nat>,
    providerWorking: map<string, bool>,
    uploadingScheduled: bool,
    uploadedScheduled: Option<string>,
    snackbars: seq<Snackbar>,
    requests: seq<PutRequest>)

  /**
   * The state on mount: the store slices as they are (the asset list may
   * already hold persisted records), the refs, provider health and the
   * notification schedule empty.
   */
  function InitialState(uploadsStatus: StatusStore, assets: seq<AddedAsset>, assetsFiles: map<string, FileBlob>): UploaderState {
    UploaderState(uploadsStatus, assets, assetsFiles, 0, map[], map[], map[], false, None, [], [])
  }

  /**
   * The counters stay consistent: the uploading notification is due exactly
   * when uploads are pending, no key has more completions than starts, a due
   * uploaded notification has counts to show, and the upload in flight has
   * not been counted as completed.
   */
  ghost predicate Inv(s: UploaderState, inFlight: Option<Transfer>) {
    && (s.uploadingScheduled <==> s.pendingUploadingCount > 0)
    && CompletionsBounded(s.uploaded, s.uploads)
    && (s.uploadedScheduled.Some? ==> s.uploadedScheduled.value in s.uploaded)
    && (inFlight.Some? ==>
          inFlight.value.key in s.uploads && Count(s.uploaded, inFlight.value.key) < s.uploads[inFlight.value.key])
  }

  /** No key has more completions than starts. */
  ghost predicate CompletionsBounded(uploaded: map<string, nat>, uploads: map<string, nat>) {
    uploaded.Keys <= uploads.Keys && forall k :: k in uploaded ==> uploaded[k] <= uploads[k]
  }

  /** The blob held in session state for `contentId`. */
  function HeldBlob(files: map<string, FileBlob>, contentId: string): Option<FileBlob> {
    if contentId in files then Some(files[contentId]) else None
  }

  /** No file was passed and none is held: the upload cannot start. */
  predicate PayloadMissing(files: map<string, FileBlob>, file: Option<FileBlob>, contentId: string) {
    contentId !in files && file.None?
  }

  // ----- Transitions --------------------------------------------------------

  /** The `catch` block: `error` status and progress 0, provider marked on a network failure, a warning. */
  function Fail(s: UploaderState, contentId: string, error: UploadError, providerId: string): UploaderState {
    s.(uploadsStatus := SetUploadStatus(s.uploadsStatus, contentId, UploadStatus(Some(0.0), Some(Error))),
       providerWorking := if IsNetworkFailure(error) then s.providerWorking[providerId := false] else s.providerWorking,
       snackbars := s.snackbars + [FailureSnackbar(error)])
  }

  /** The transfer that `startFileUpload` awaits, if it gets that far. */
  function BeginTransfer(s: UploaderState, file: Option<FileBlob>, asset: InputAssetUpload,
                         provider: Option<StorageProvider>): Option<Transfer> {
    if provider.None? || PayloadMissing(s.assetsFiles, file, asset.contentId) then None
    else Some(Transfer(asset.contentId, AssetKey(asset.parentObject), provider.value.id))
  }

  /** `setAssetsFiles`, called only when no blob is held and a file was passed. */
  function CacheBlob(s: UploaderState, file: Option<FileBlob>, contentId: string): UploaderState {
    if contentId !in s.assetsFiles && file.Some? then s.(assetsFiles := s.assetsFiles[contentId := file.value]) else s
  }

  /** `addAsset` for a fresh upload with a file, then the status reset, as `startFileUpload` does before the PUT. */
  function RecordStart(s: UploaderState, file: Option<FileBlob>, asset: InputAssetUpload, opts: UploadOptions): UploaderState {
    var cid := asset.contentId;
    var added := if !opts.isReUpload && file.Some? then [AddedAsset(asset, file.value.size)] else [];
    var marked := if file.Some? then SetUploadStatus(s.uploadsStatus, cid, UploadStatus(None, Some(InProgress)))
                  else s.uploadsStatus;
    s.(assets := s.assets + added, uploadsStatus := SetUploadStatus(marked, cid, UploadStatus(Some(0.0), None)))
  }

  /** One more pending uploading notification and one more upload for `key`. */
  function CountStart(s: UploaderState, key: string): UploaderState {
    s.(pendingUploadingCount := s.pendingUploadingCount + 1, uploadingScheduled := true,
       uploads := s.uploads[key := Count(s.uploads, key) + 1])
  }

  /**
   * The `try` block up to the PUT, once the payload is known to exist:
   * record the asset, count it, issue the PUT.
   */
  function Started(s: UploaderState, file: Option<FileBlob>, asset: InputAssetUpload, opts: UploadOptions,
                   storage: StorageProvider, fileInState: Option<FileBlob>): UploaderState {
    var counted := CountStart(RecordStart(s, file, asset, opts), AssetKey(asset.parentObject));
    var body := if opts.changeHost then fileInState else file;
    counted.(requests := counted.requests + [PutRequest(storage.url, asset.contentId, body)])
  }

  /** `startFileUpload` up to the awaited PUT. */
  function Begin(s: UploaderState, file: Option<FileBlob>, asset: InputAssetUpload, opts: UploadOptions,
                 provider: Option<StorageProvider>): UploaderState {
    if provider.None? then s
    else
      var cid := asset.contentId;
      var cached := CacheBlob(s, file, cid);
      if PayloadMissing(s.assetsFiles, file, cid) then Fail(cached, cid, PlainError(MISSING_FILE_MESSAGE), provider.value.id)
      else Started(cached, file, asset, opts, provider.value, HeldBlob(s.assetsFiles, cid))
  }

  /** One transport callback during the PUT. */
  function ApplyEvent(s: UploaderState, t: Transfer, e: TransferEvent): UploaderState {
    match e
    case UploadProgress(p) =>
      s.(uploadsStatus := SetUploadStatus(s.uploadsStatus, t.contentId, UploadStatus(Some(p), None)))
    case RetryAttempt(n, _) =>
      if n == 1 then s.(uploadsStatus := SetUploadStatus(s.uploadsStatus, t.contentId, UploadStatus(None, Some(Reconnecting))))
      else s
  }

  /** The callbacks in the order the transport delivers them. */
  function ApplyEvents(s: UploaderState, t: Transfer, events: seq<TransferEvent>): UploaderState {
    if |events| == 0 then s else ApplyEvent(ApplyEvents(s, t, events[..|events| - 1]), t, events[|events| - 1])
  }

  /** `startFileUpload` after the awaited PUT settles. */
  function Finish(s: UploaderState, t: Transfer, result: TransferResult): UploaderState {
    match result
    case Delivered =>
      s.(uploadsStatus := SetUploadStatus(s.uploadsStatus, t.contentId, UploadStatus(Some(100.0), Some(Completed))),
         uploaded := s.uploaded[t.key := Count(s.uploaded, t.key) + 1],
         uploadedScheduled := Some(t.key))
    case Rejected(e) => Fail(s, t.contentId, e, t.providerId)
  }

  /** One whole `startFileUpload` call. */
  function Run(s: UploaderState, file: Option<FileBlob>, asset: InputAssetUpload, opts: UploadOptions,
               provider: Option<StorageProvider>, events: seq<TransferEvent>, result: TransferResult): UploaderState {
    var started := Begin(s, file, asset, opts, provider);
    match BeginTransfer(s, file, asset, provider)
    case None => started
    case Some(t) => Finish(ApplyEvents(started, t, events), t, result)
  }

  /** The debounced uploading notification fires. */
  function FlushUploading(s: UploaderState): UploaderState {
    if s.uploadingScheduled then
      s.(snackbars := s.snackbars + [UploadingSnackbar(s.pendingUploadingCount)],
         pendingUploadingCount := 0, uploadingScheduled := false)
    else s
  }

  /** The debounced uploaded notification fires for the key of its last call. */
  function FlushUploaded(s: UploaderState): UploaderState {
    match s.uploadedScheduled
    case None => s
    case Some(key) =>
      var done, total := Count(s.uploaded, key), Count(s.uploads, key);
      var s1 := s.(snackbars := s.snackbars + [UploadedSnackbar(key, done, total)], uploadedScheduled := None);
      if done == total then s1.(uploaded := s1.uploaded[key := 0], uploads := s1.uploads[key := 0]) else s1
  }

  // ----- What the transitions promise ---------------------------------------------

  /** Without a storage provider the call returns before touching anything. */
  lemma NoProviderChangesNothing(s: UploaderState, file: Option<FileBlob>, asset: InputAssetUpload,
                                 opts: UploadOptions, events: seq<TransferEvent>, result: TransferResult)
    ensures Run(s, file, asset, opts, None, events, result) == s
    ensures BeginTransfer(s, file, asset, None).None?
  {
  }

  /**
   * Without a payload the asset ends in `error` with progress 0 and an
   * "unexpected error" warning; nothing is added, cached, counted or marked.
   */
  lemma MissingPayloadFails(s: UploaderState, asset: InputAssetUpload, opts: UploadOptions, p: StorageProvider,
                            events: seq<TransferEvent>, result: TransferResult)
    requires asset.contentId !in s.assetsFiles
    ensures var r := Run(s, None, asset, opts, Some(p), events, result);
      && r.uploadsStatus == s.uploadsStatus[asset.contentId := UploadStatus(Some(0.0), Some(Error))]
      && r.snackbars == s.snackbars + [FailureSnackbar(PlainError(MISSING_FILE_MESSAGE))]
      && r.snackbars[|s.snackbars|].description == Some(UNEXPECTED_ERROR)
      && r.assets == s.assets && r.assetsFiles == s.assetsFiles && r.requests == s.requests
      && r.pendingUploadingCount == s.pendingUploadingCount && r.uploadingScheduled == s.uploadingScheduled
      && r.uploads == s.uploads && r.uploaded == s.uploaded && r.uploadedScheduled == s.uploadedScheduled
      && r.providerWorking == s.providerWorking
  {
    var r := Run(s, None, asset, opts, Some(p), events, result);
    assert r == Fail(s, asset.contentId, PlainError(MISSING_FILE_MESSAGE), p.id);
  }

  /** A file is cached only when none is held for the asset and one was passed. */
  lemma BlobCachedOnlyWhenAbsent(s: UploaderState, file: Option<FileBlob>, asset: InputAssetUpload,
                                 opts: UploadOptions, p: StorageProvider)
    ensures Begin(s, file, asset, opts, Some(p)).assetsFiles ==
      if asset.contentId !in s.assetsFiles && file.Some? then s.assetsFiles[asset.contentId := file.value]
      else s.assetsFiles
  {
  }

  /**
   * Once the payload is resolved, a fresh upload with a file adds the asset
   * once with the file's size, a re-upload adds nothing, and both reset the
   * progress to 0; a passed file marks the asset `inProgress`. The PUT body is
   * the held blob when switching hosts, else the passed file.
   */
  lemma StartRecordsAsset(s: UploaderState, file: Option<FileBlob>, asset: InputAssetUpload,
                          opts: UploadOptions, p: StorageProvider)
    requires !PayloadMissing(s.assetsFiles, file, asset.contentId)
    ensures var r := Begin(s, file, asset, opts, Some(p));
      && r.assets == s.assets + (if !opts.isReUpload && file.Some? then [AddedAsset(asset, file.value.size)] else [])
      && StatusOf(r.uploadsStatus, asset.contentId).progress == Some(0.0)
      && StatusOf(r.uploadsStatus, asset.contentId).lastStatus ==
           (if file.Some? then Some(InProgress) else StatusOf(s.uploadsStatus, asset.contentId).lastStatus)
      && (forall id :: id != asset.contentId ==> StatusOf(r.uploadsStatus, id) == StatusOf(s.uploadsStatus, id))
      && r.requests == s.requests + [PutRequest(p.url, asset.contentId,
           if opts.changeHost then HeldBlob(s.assetsFiles, asset.contentId) else file)]
      && r.snackbars == s.snackbars && r.providerWorking == s.providerWorking
  {
  }

  /**
   * Once the payload is resolved, the pending uploading counter and the
   * `uploads` counter of the asset's key each grow by exactly one; every other
   * key, and the `uploaded` counters, are unchanged.
   */
  lemma StartBumpsCounters(s: UploaderState, file: Option<FileBlob>, asset: InputAssetUpload,
                           opts: UploadOptions, p: StorageProvider, other: string)
    requires !PayloadMissing(s.assetsFiles, file, asset.contentId)
    ensures var r := Begin(s, file, asset, opts, Some(p));
      && r.pendingUploadingCount == s.pendingUploadingCount + 1 && r.uploadingScheduled
      && Count(r.uploads, AssetKey(asset.parentObject)) == Count(s.uploads, AssetKey(asset.parentObject)) + 1
      && (other != AssetKey(asset.parentObject) ==> Count(r.uploads, other) == Count(s.uploads, other))
      && r.uploaded == s.uploaded && r.uploadedScheduled == s.uploadedScheduled
  {
  }

  /** A progress tick changes only the progress of the transferring asset, never its status. */
  lemma ProgressTickKeepsStatus(s: UploaderState, t: Transfer, p: real)
    ensures var r := ApplyEvent(s, t, UploadProgress(p));
      && StatusOf(r.uploadsStatus, t.contentId) == StatusOf(s.uploadsStatus, t.contentId).(progress := Some(p))
      && r == s.(uploadsStatus := r.uploadsStatus)
  {
  }

  /** A retry attempt shows the asset as `reconnecting` on attempt 1 only, keeping its progress. */
  lemma RetryReconnectsOnFirstAttempt(s: UploaderState, t: Transfer, n: nat, status: Option<int>)
    ensures var r := ApplyEvent(s, t, RetryAttempt(n, status));
      && (n == 1 ==> StatusOf(r.uploadsStatus, t.contentId) ==
                       StatusOf(s.uploadsStatus, t.contentId).(lastStatus := Some(Reconnecting)))
      && (n != 1 ==> r == s)
      && r == s.(uploadsStatus := r.uploadsStatus)
  {
  }

  /** One callback changes only the status entry of the transferring asset. */
  lemma EventTouchesOnlyTheAsset(s: UploaderState, t: Transfer, e: TransferEvent)
    ensures var r := ApplyEvent(s, t, e);
      && r == s.(uploadsStatus := r.uploadsStatus)
      && r.uploadsStatus - {t.contentId} == s.uploadsStatus - {t.contentId}
  {
  }

  /**
   * Over a whole PUT the callbacks touch only the status entry of the
   * transferring asset.
   */
  lemma {:induction false} EventsTouchOnlyTheAsset(s: UploaderState, t: Transfer, events: seq<TransferEvent>)
    ensures var r := ApplyEvents(s, t, events);
      && r == s.(uploadsStatus := r.uploadsStatus)
      && r.uploadsStatus - {t.contentId} == s.uploadsStatus - {t.contentId}
  {
    if |events| > 0 {
      EventsTouchOnlyTheAsset(s, t, events[..|events| - 1]);
      EventTouchesOnlyTheAsset(ApplyEvents(s, t, events[..|events| - 1]), t, events[|events| - 1]);
    }
  }

  /** The callback is the first retry attempt. */
  predicate IsFirstRetry(e: TransferEvent) {
    e.RetryAttempt? && e.attempt == 1
  }

  /**
   * After the callbacks the asset is `reconnecting` when a first retry was
   * reported, and otherwise keeps the status it had.
   */
  lemma {:induction false} EventsReconnectOnFirstRetry(s: UploaderState, t: Transfer, events: seq<TransferEvent>)
    ensures StatusOf(ApplyEvents(s, t, events).uploadsStatus, t.contentId).lastStatus ==
              if exists i :: 0 <= i < |events| && IsFirstRetry(events[i])
              then Some(Reconnecting) else StatusOf(s.uploadsStatus, t.contentId).lastStatus
  {
    if |events| > 0 {
      var prefix := events[..|events| - 1];
      EventsReconnectOnFirstRetry(s, t, prefix);
      if exists i :: 0 <= i < |prefix| && IsFirstRetry(prefix[i]) {
        var i :| 0 <= i < |prefix| && IsFirstRetry(prefix[i]);
        assert events[i] == prefix[i];
      }
      if exists i :: 0 <= i < |events| && IsFirstRetry(events[i]) {
        var i :| 0 <= i < |events| && IsFirstRetry(events[i]);
        if i < |prefix| {
          assert prefix[i] == events[i];
        }
      }
    }
  }

  /**
   * Once the payload is resolved, the call ends with the asset `completed`
   * at progress 100 or in `error` at progress 0; every other status entry
   * is as it was before the call.
   */
  lemma RunEndsTerminal(s: UploaderState, file: Option<FileBlob>, asset: InputAssetUpload, opts: UploadOptions,
                        p: StorageProvider, events: seq<TransferEvent>, result: TransferResult)
    requires !PayloadMissing(s.assetsFiles, file, asset.contentId)
    ensures Run(s, file, asset, opts, Some(p), events, result).uploadsStatus ==
              s.uploadsStatus[asset.contentId := if result.Delivered? then UploadStatus(Some(100.0), Some(Completed))
                                                 else UploadStatus(Some(0.0), Some(Error))]
  {
    var cid := asset.contentId;
    var t := Transfer(cid, AssetKey(asset.parentObject), p.id);
    var started := Begin(s, file, asset, opts, Some(p));
    var applied := ApplyEvents(started, t, events);
    var r := Run(s, file, asset, opts, Some(p), events, result);
    assert r == Finish(applied, t, result);
    var final := if result.Delivered? then UploadStatus(Some(100.0), Some(Completed)) else UploadStatus(Some(0.0), Some(Error));
    assert r.uploadsStatus == applied.uploadsStatus[cid := final] by {
      SetUploadStatusMerges(applied.uploadsStatus, cid, final, cid);
      assert r.uploadsStatus - {cid} == applied.uploadsStatus - {cid};
      SameUpdate(r.uploadsStatus, applied.uploadsStatus, cid, final);
    }
    EventsTouchOnlyTheAsset(started, t, events);
    assert started.uploadsStatus - {cid} == s.uploadsStatus - {cid} by {
      var marked := if file.Some? then SetUploadStatus(s.uploadsStatus, cid, UploadStatus(None, Some(InProgress)))
                    else s.uploadsStatus;
      SetUploadStatusMerges(s.uploadsStatus, cid, UploadStatus(None, Some(InProgress)), cid);
      SetUploadStatusMerges(marked, cid, UploadStatus(Some(0.0), None), cid);
    }
    SameUpdate(applied.uploadsStatus, s.uploadsStatus, cid, final);
  }

  /**
   * Once the payload is resolved, the call counts one more upload for the
   * asset's key and, on success, one more completion; a failure marks the
   * provider on a network failure and adds one warning.
   */
  lemma RunCountsAndReports(s: UploaderState, file: Option<FileBlob>, asset: InputAssetUpload, opts: UploadOptions,
                            p: StorageProvider, events: seq<TransferEvent>, result: TransferResult)
    requires !PayloadMissing(s.assetsFiles, file, asset.contentId)
    ensures var r := Run(s, file, asset, opts, Some(p), events, result);
      var key := AssetKey(asset.parentObject);
      && Count(r.uploads, key) == Count(s.uploads, key) + 1
      && r.uploaded == (if result.Delivered? then s.uploaded[key := Count(s.uploaded, key) + 1] else s.uploaded)
      && r.providerWorking == (if result.Rejected? && IsNetworkFailure(result.error)
                               then s.providerWorking[p.id := false] else s.providerWorking)
      && r.snackbars == s.snackbars + (if result.Rejected? then [FailureSnackbar(result.error)] else [])
  {
    var t := Transfer(asset.contentId, AssetKey(asset.parentObject), p.id);
    var started := Begin(s, file, asset, opts, Some(p));
    var applied := ApplyEvents(started, t, events);
    EventsTouchOnlyTheAsset(started, t, events);
    StartRecordsAsset(s, file, asset, opts, p);
    StartBumpsCounters(s, file, asset, opts, p, t.key);
    assert Run(s, file, asset, opts, Some(p), events, result) == Finish(applied, t, result);
  }

  lemma SameUpdate<V>(m1: map<string, V>, m2: map<string, V>, k: string, v: V)
    requires m1 - {k} == m2 - {k}
    ensures m1[k := v] == m2[k := v]
  {
    calc {
      m1[k := v];
      (m1 - {k})[k := v];
      (m2 - {k})[k := v];
      m2[k := v];
    }
  }

  /** A failure marks the provider not working exactly on a network failure, and says so. */
  lemma FailureMarksProviderOnNetworkFailure(s: UploaderState, t: Transfer, e: UploadError, id: string)
    ensures var r := Finish(s, t, Rejected(e));
      && (id in r.providerWorking && !r.providerWorking[id] <==>
            (id == t.providerId && IsNetworkFailure(e)) || (id in s.providerWorking && !s.providerWorking[id]))
      && r.snackbars[|r.snackbars| - 1].description ==
           Some(if IsNetworkFailure(e) then HOST_NOT_RESPONDING else UNEXPECTED_ERROR)
  {
  }

  /**
   * Flushing the uploading notification shows one snackbar naming the number
   * of uploads started since the last flush, and resets that number.
   */
  lemma FlushUploadingReports(s: UploaderState)
    requires s.uploadingScheduled <==> s.pendingUploadingCount > 0
    ensures var r := FlushUploading(s);
      && r.pendingUploadingCount == 0 && !r.uploadingScheduled
      && (s.uploadingScheduled ==>
            && r.snackbars == s.snackbars + [UploadingSnackbar(s.pendingUploadingCount)]
            && (s.pendingUploadingCount > 1 ==>
                  r.snackbars[|s.snackbars|].title == Text.NatToString(s.pendingUploadingCount) + UPLOADING_SUFFIX)
            && (s.pendingUploadingCount == 1 ==> r.snackbars[|s.snackbars|].title == SINGLE_UPLOADING_TITLE))
      && (!s.uploadingScheduled ==> r == s)
  {
  }

  /**
   * Flushing the uploaded notification reports `uploaded/uploads` for its key
   * and resets both counters of that key exactly when they are equal.
   */
  lemma FlushUploadedResetsOnEquality(s: UploaderState, key: string)
    requires s.uploadedScheduled == Some(key)
    ensures var r := FlushUploaded(s);
      var done, total := Count(s.uploaded, key), Count(s.uploads, key);
      && r.snackbars == s.snackbars + [UploadedSnackbar(key, done, total)]
      && r.uploadedScheduled.None?
      && (done == total ==> Count(r.uploaded, key) == 0 && Count(r.uploads, key) == 0)
      && (done != total ==> r.uploaded == s.uploaded && r.uploads == s.uploads)
      && (forall k :: k != key ==> Count(r.uploaded, k) == Count(s.uploaded, k) && Count(r.uploads, k) == Count(s.uploads, k))
  {
  }

  lemma InitialInv(uploadsStatus: StatusStore, assets: seq<AddedAsset>, assetsFiles: map<string, FileBlob>)
    ensures Inv(InitialState(uploadsStatus, assets, assetsFiles), None)
  {
  }

  lemma {:induction false} BeginKeepsInv(s: UploaderState, file: Option<FileBlob>, asset: InputAssetUpload,
                                         opts: UploadOptions, provider: Option<StorageProvider>)
    requires Inv(s, None)
    ensures Inv(Begin(s, file, asset, opts, provider), BeginTransfer(s, file, asset, provider))
  {
    var r := Begin(s, file, asset, opts, provider);
    var key := AssetKey(asset.parentObject);
    if BeginTransfer(s, file, asset, provider).Some? {
      assert Count(r.uploaded, key) == Count(s.uploaded, key) <= Count(s.uploads, key) < r.uploads[key];
      forall k | k in r.uploaded ensures r.uploaded[k] <= r.uploads[k] {
        assert k in s.uploaded;
      }
    }
  }

  lemma EventsKeepInv(s: UploaderState, t: Transfer, events: seq<TransferEvent>)
    requires Inv(s, Some(t))
    ensures Inv(ApplyEvents(s, t, events), Some(t))
  {
    EventsTouchOnlyTheAsset(s, t, events);
  }

  lemma FinishKeepsInv(s: UploaderState, t: Transfer, result: TransferResult)
    requires Inv(s, Some(t))
    ensures Inv(Finish(s, t, result), None)
  {
  }

  lemma FlushUploadingKeepsInv(s: UploaderState, inFlight: Option<Transfer>)
    requires Inv(s, inFlight)
    ensures Inv(FlushUploading(s), inFlight)
  {
  }

  /** The in-flight key is never reset: its completions are still short of its starts. */
  lemma FlushUploadedKeepsInv(s: UploaderState, inFlight: Option<Transfer>)
    requires Inv(s, inFlight)
    ensures Inv(FlushUploaded(s), inFlight)
  {
  }

  // ----- The hook's mutable state -------------------------------------------------

  /**
   * The store slices and refs `startFileUpload` works on. Methods change them
   * in place, as the hook does through its refs and store setters; `State()` is their value.
   */
  class FileUploader {
    var uploadsStatus: StatusStore
    var assets: seq<AddedAsset>
    var assetsFiles: map<string, FileBlob>
    var pendingUploadingCount: nat
    var uploads: map<string, nat>
    var uploaded: map<string, nat>
    var providerWorking: map<string, bool>
    var uploadingScheduled: bool
    var uploadedScheduled: Option<string>
    var snackbars: seq<Snackbar>
    var requests: seq<PutRequest>
    /** The upload whose PUT is awaited; one call at a time. */
    ghost var inFlight: Option<Transfer>

    function State(): UploaderState
      reads this
    {
      UploaderState(uploadsStatus, assets, assetsFiles, pendingUploadingCount, uploads, uploaded,
                    providerWorking, uploadingScheduled, uploadedScheduled, snackbars, requests)
    }

    ghost predicate Valid()
      reads this
    {
      Inv(State(), inFlight)
    }

    constructor (uploadsStatus: StatusStore, assets: seq<AddedAsset>, assetsFiles: map<string, FileBlob>)
      ensures Valid() && inFlight.None? && State() == InitialState(uploadsStatus, assets, assetsFiles)
    {
      this.uploadsStatus, this.assets, this.assetsFiles := uploadsStatus, assets, assetsFiles;
      pendingUploadingCount, uploads, uploaded := 0, map[], map[];
      providerWorking, uploadingScheduled, uploadedScheduled := map[], false, None;
      snackbars, requests := [], [];
      inFlight := None;
      InitialInv(uploadsStatus, assets, assetsFiles);
    }

    /** The `catch` block of `startFileUpload`. */
    method FailUpload(contentId: string, error: UploadError, providerId: string)
      modifies this`uploadsStatus, this`providerWorking, this`snackbars
      ensures State() == Fail(old(State()), contentId, error, providerId)
    {
      uploadsStatus := SetUploadStatus(uploadsStatus, contentId, UploadStatus(Some(0.0), Some(Error)));
      var networkFailure := IsNetworkFailure(error);
      if networkFailure {
        providerWorking := providerWorking[providerId := false];
      }
      snackbars := snackbars + [FailureSnackbar(error)];
    }

    /**
     * `startFileUpload` up to the awaited PUT; it returns the transfer in
     * flight, or `None` when the call returned early or ended in `catch`.
     */
    method BeginUpload(file: Option<FileBlob>, asset: InputAssetUpload, opts: UploadOptions,
                       provider: Option<StorageProvider>)
      returns (transfer: Option<Transfer>)
      requires Valid() && inFlight.None?
      modifies this
      ensures Valid() && inFlight == transfer
      ensures transfer == BeginTransfer(old(State()), file, asset, provider)
      ensures State() == Begin(old(State()), file, asset, opts, provider)
    {
      ghost var s0 := State();
      BeginKeepsInv(s0, file, asset, opts, provider);
      if provider.None? {
        return None;
      }
      var storage := provider.value;
      var cid := asset.contentId;
      var fileInState := HeldBlob(assetsFiles, cid);
      if fileInState.None? && file.Some? {
        assetsFiles := assetsFiles[cid := file.value];
      }
      ghost var cached := State();
      assert cached == CacheBlob(s0, file, cid);
      if fileInState.None? && file.None? {
        FailUpload(cid, PlainError(MISSING_FILE_MESSAGE), storage.id);
        assert State() == Begin(s0, file, asset, opts, provider) by {
          assert State() == Fail(cached, cid, PlainError(MISSING_FILE_MESSAGE), storage.id);
        }
        return None;
      }
      MarkStarted(file, asset, opts, storage, fileInState);
      assert State() == Begin(s0, file, asset, opts, provider) by {
        assert State() == Started(cached, file, asset, opts, storage, fileInState);
      }
      transfer := Some(Transfer(cid, AssetKey(asset.parentObject), storage.id));
      inFlight := transfer;
    }

    /** The `try` block from `addAsset` to issuing the PUT. */
    method MarkStarted(file: Option<FileBlob>, asset: InputAssetUpload, opts: UploadOptions,
                       storage: StorageProvider, fileInState: Option<FileBlob>)
      modifies this`assets, this`uploadsStatus, this`pendingUploadingCount, this`uploadingScheduled
      modifies this`uploads, this`requests
      ensures State() == Started(old(State()), file, asset, opts, storage, fileInState)
    {
      RecordAsset(file, asset, opts);
      var key := AssetKey(asset.parentObject);
      pendingUploadingCount := pendingUploadingCount + 1;
      uploadingScheduled := true;
      uploads := uploads[key := Count(uploads, key) + 1];
      var body := if opts.changeHost then fileInState else file;
      requests := requests + [PutRequest(storage.url, asset.contentId, body)];
    }

    /** `addAsset` and the `setAssetStatus` calls before the PUT. */
    method RecordAsset(file: Option<FileBlob>, asset: InputAssetUpload, opts: UploadOptions)
      modifies this`assets, this`uploadsStatus
      ensures State() == RecordStart(old(State()), file, asset, opts)
    {
      var cid := asset.contentId;
      if !opts.isReUpload && file.Some? {
        assets := assets + [AddedAsset(asset, file.value.size)];
        uploadsStatus := SetUploadStatus(uploadsStatus, cid, UploadStatus(None, Some(InProgress)));
      }
      if opts.isReUpload && file.Some? {
        uploadsStatus := SetUploadStatus(uploadsStatus, cid, UploadStatus(None, Some(InProgress)));
      }
      uploadsStatus := SetUploadStatus(uploadsStatus, cid, UploadStatus(Some(0.0), None));
    }

    /** `onRetryAttempt`. */
    method OnRetryAttempt(t: Transfer, attempt: nat, responseStatus: Option<int>)
      requires Valid() && inFlight == Some(t)
      modifies this`uploadsStatus
      ensures Valid()
      ensures State() == ApplyEvent(old(State()), t, RetryAttempt(attempt, responseStatus))
    {
      ghost var before := State();
      if attempt == 1 {
        uploadsStatus := SetUploadStatus(uploadsStatus, t.contentId, UploadStatus(None, Some(Reconnecting)));
      }
      assert State() == ApplyEvents(before, t, [RetryAttempt(attempt, responseStatus)]);
      EventsKeepInv(before, t, [RetryAttempt(attempt, responseStatus)]);
    }

    /** `setUploadProgress`, the `onUploadProgress` callback. */
    method OnUploadProgress(t: Transfer, progress: real)
      requires Valid() && inFlight == Some(t)
      modifies this`uploadsStatus
      ensures Valid()
      ensures State() == ApplyEvent(old(State()), t, UploadProgress(progress))
    {
      ghost var before := State();
      uploadsStatus := SetUploadStatus(uploadsStatus, t.contentId, UploadStatus(Some(progress), None));
      assert State() == ApplyEvents(before, t, [UploadProgress(progress)]);
      EventsKeepInv(before, t, [UploadProgress(progress)]);
    }

    /** `startFileUpload` after the awaited PUT settles. */
    method FinishUpload(t: Transfer, result: TransferResult)
      requires Valid() && inFlight == Some(t)
      modifies this
      ensures Valid() && inFlight.None?
      ensures State() == Finish(old(State()), t, result)
    {
      ghost var s0 := State();
      FinishKeepsInv(s0, t, result);
      if result.Delivered? {
        CompleteUpload(t);
      } else {
        FailUpload(t.contentId, result.error, t.providerId);
      }
      assert State() == Finish(s0, t, result);
      inFlight := None;
    }

    /** The end of the `try` block once the PUT succeeded. */
    method CompleteUpload(t: Transfer)
      modifies this`uploadsStatus, this`uploaded, this`uploadedScheduled
      ensures State() == Finish(old(State()), t, Delivered)
    {
      uploadsStatus := SetUploadStatus(uploadsStatus, t.contentId, UploadStatus(Some(100.0), Some(Completed)));
      uploaded := uploaded[t.key := Count(uploaded, t.key) + 1];
      uploadedScheduled := Some(t.key);
    }

    /**
     * One whole `startFileUpload` call: the PUT's callbacks arrive as
     * `events`, in order, and the PUT settles with `result`.
     */
    method StartFileUpload(file: Option<FileBlob>, asset: InputAssetUpload, opts: UploadOptions,
                           provider: Option<StorageProvider>, events: seq<TransferEvent>, result: TransferResult)
      requires Valid() && inFlight.None?
      modifies this
      ensures Valid() && inFlight.None?
      ensures State() == Run(old(State()), file, asset, opts, provider, events, result)
    {
      var transfer := BeginUpload(file, asset, opts, provider);
      if transfer.None? {
        return;
      }
      var t := transfer.value;
      ghost var started := State();
      for i := 0 to |events|
        invariant Valid() && inFlight == Some(t)
        invariant State() == ApplyEvents(started, t, events[..i])
      {
        assert events[..i + 1][..i] == events[..i];
        match events[i]
        case UploadProgress(p) => OnUploadProgress(t, p);
        case RetryAttempt(n, status) => OnRetryAttempt(t, n, status);
      }
      assert events[..|events|] == events;
      FinishUpload(t, result);
    }

    /** The debounced uploading notification fires. */
    method FlushUploadingNotification()
      requires Valid()
      modifies this`pendingUploadingCount, this`uploadingScheduled, this`snackbars
      ensures Valid()
      ensures State() == FlushUploading(old(State()))
    {
      FlushUploadingKeepsInv(State(), inFlight);
      if uploadingScheduled {
        snackbars := snackbars + [UploadingSnackbar(pendingUploadingCount)];
        pendingUploadingCount := 0;
        uploadingScheduled := false;
      }
    }

    /** The debounced uploaded notification fires for the key of its last call. */
    method FlushUploadedNotification()
      requires Valid()
      modifies this`uploads, this`uploaded, this`uploadedScheduled, this`snackbars
      ensures Valid()
      ensures State() == FlushUploaded(old(State()))
    {
      ghost var s0 := State();
      FlushUploadedKeepsInv(s0, inFlight);
      if uploadedScheduled.Some? {
        var key := uploadedScheduled.value;
        var done, total := Count(uploaded, key), Count(uploads, key);
        snackbars := snackbars + [UploadedSnackbar(key, done, total)];
        uploadedScheduled := None;
        if done == total {
          uploaded := uploaded[key := 0];
          uploads := uploads[key := 0];
        }
      }
      assert State() == FlushUploaded(s0);
    }
  }
}
