# Asset-upload bookkeeping of the Atlas studio, in Dafny

This project models the client-side bookkeeping that the Atlas studio
(a Joystream video platform front end) does around asset uploads. It proves
properties of that model. The model has three parts.

- **The upload orchestrator** (`StartFileUpload`) is the current uploads
  provider. Each `startFileUpload` call goes through these steps:
  - it resolves a storage provider;
  - it resolves the file payload, preferring a blob already held in session
    state;
  - it creates the asset record on a fresh upload, or only resets its status
    on a re-upload;
  - it bumps two notification counters;
  - it issues one PUT under a fixed retry policy;
  - it ends the asset in `completed` or `error`.

  On a network failure it also marks the provider "not working". Two debounced
  snackbars batch the notifications:
  - "N assets being uploaded";
  - per `type-id` key, "uploaded/uploads assets uploaded".

  The hook's refs and store slices are the fields of the class
  `FileUploader`. Each method is specified by the pure transition it performs
  on the `UploaderState` value. `Inv` is the invariant over the counters that
  every public step keeps: `BeginUpload`, the two callbacks, `FinishUpload`,
  `StartFileUpload` and the two flushes.
- **The older upload manager** (`LegacyUploadsManager`) has two pieces:
  - a pure projection pipeline, which adds progress to each persisted record,
    matches it against the remote data objects to get its liaison judgement,
    picks out the assets whose judgement is pending, adds titles to video
    assets, and groups everything by parent id;
  - a five-retry `startFileUpload`, whose last retry gives up with
    `reconnectionError`. Its state lives in the class `UploadManager`.
- **The uploads view** (`MyUploadsView`) lays the ephemeral status over the
  persisted records, groups them by parent id with a fold that skips falsy
  entries, and chooses among loading placeholders, one bar per group, and the
  empty view.

Shared modules:
- `Wrappers` provides `Option`.
- `Text` prints counters in decimal and proves that the printed digits read
  back as the same number.
- `Sequences` holds order-preserving filtering.
- `Grouping` holds the generic first-seen grouping that both views' `reduce`
  performs, with its partition lemmas.
- `UploadTypes` holds the records and the ephemeral status store.

The asynchronous `startFileUpload` of each manager is split at its `await`:
- the first method does everything up to the PUT;
- the transport's callbacks are separate methods, fed as a sequence of
  `TransferEvent`s;
- the settlement is a method of its own;
- a composite method runs all three in order with a loop over the events.

The transport's behaviour is an input: which callbacks arrive, and whether the
PUT resolves or rejects with what error.

Two behaviours of the code are worth noting:
- A host that keeps answering 503 is retried three times. The final error has
  a response status, so it is not a network failure, and the provider is not
  marked as not working (`StartFileUpload.PersistentServerError`).
- In the current orchestrator, a progress tick after a retry does not set the
  asset back to `inProgress`; it changes only the progress
  (`StartFileUpload.ProgressTickKeepsStatus`). The older manager does set
  `inProgress` on every tick.

## Model

| member | source | states |
|---|---|---|
| Text.NatToString | src/providers/uploadsManager/useStartFileUpload.tsx:48-51 | a counter prints as a non-empty string of decimal digits, one digit exactly below 10 |
| Text.DecimalRoundTrip | src/providers/uploadsManager/useStartFileUpload.tsx:68 | the printed digits of a counter read back as the same number |
| Text.NatToStringInjective | src/providers/uploadsManager/useStartFileUpload.tsx:68 | distinct counters print differently |
| Sequences.Filter | src/hooks/useUploadsManager/useUploadsManager.tsx:57-59 | the filtered list is no longer than its input and each element satisfies the predicate |
| Sequences.FilterMembership | src/hooks/useUploadsManager/useUploadsManager.tsx:57-59 | an element is kept iff it is in the input and satisfies the predicate |
| Sequences.FilterCount | src/hooks/useUploadsManager/useUploadsManager.tsx:57-59 | a passing value is kept as many times as it occurs in the input, a failing one never |
| Sequences.FilterIsSubsequence | src/hooks/useUploadsManager/useUploadsManager.tsx:57-59 | filtering keeps the input order |
| Sequences.FilterAll | src/hooks/useUploadsManager/useUploadsManager.tsx:57-59 | nothing is dropped when every element satisfies the predicate |
| Sequences.FilterSnoc | src/hooks/useUploadsManager/useUploadsManager.tsx:57-59 | filtering an extended list extends the filtered list by the new element iff it passes |
| Grouping.AddToGroups | src/hooks/useUploadsManager/useUploadsManager.tsx:88-91 | one step of the `reduce`: the element starts a new group when its key has none, else joins the first group of its key (proved in `GroupByIsGrouping`) |
| Grouping.GroupBy | src/hooks/useUploadsManager/useUploadsManager.tsx:87-93 | the whole `reduce` over the list; `GroupByIsGrouping` and `GroupByPartition` state that it partitions the list by key |
| Grouping.FindGroup | src/hooks/useUploadsManager/useUploadsManager.tsx:88-90 | the accumulator lookup finds the first group of the key, or reports that none exists |
| Grouping.WithKeySnoc | src/hooks/useUploadsManager/useUploadsManager.tsx:88-91 | the elements of a key in an extended list gain the new element iff it has that key |
| Grouping.WithKeyEmpty | src/hooks/useUploadsManager/useUploadsManager.tsx:88-91 | a key no element has selects nothing |
| Grouping.GroupByIsGrouping | src/hooks/useUploadsManager/useUploadsManager.tsx:87-93 | the reduce yields a grouping: non-empty groups, each exactly the input-ordered elements of its key, keys distinct, every element's key has a group |
| Grouping.GroupingCovers | src/hooks/useUploadsManager/useUploadsManager.tsx:87-93 | an element is in the input iff it is in some group |
| Grouping.GroupingMembers | src/hooks/useUploadsManager/useUploadsManager.tsx:87-93 | every member of a group has the group's key and a group is a subsequence of the input |
| Grouping.GroupingDisjoint | src/hooks/useUploadsManager/useUploadsManager.tsx:87-93 | no element is in two groups |
| Grouping.GroupingNonEmpty | src/views/studio/MyUploadsView/MyUploadsView.tsx:42 | there is a group iff the input is non-empty |
| Grouping.GroupByPartition | src/hooks/useUploadsManager/useUploadsManager.tsx:87-93 | every input element lies in exactly one group, the one of its key |
| UploadTypes.SetUploadStatus | src/providers/uploadsManager/useStartFileUpload.tsx:98-100 | `setUploadStatus` merging a partial status into one asset's entry; `SetUploadStatusMerges` states the merge |
| UploadTypes.SetUploadStatusMerges | src/providers/uploadsManager/useStartFileUpload.tsx:98-100 | setting a partial status changes only that asset's entry, where each given field replaces the old one and the rest are kept |
| StartFileUpload.UploadingTitle | src/providers/uploadsManager/useStartFileUpload.tsx:48-51 | the uploading snackbar's title; `UploadingTitleInjective` and `FlushUploadingReports` state its form and that it names the count |
| StartFileUpload.UploadedTitle | src/providers/uploadsManager/useStartFileUpload.tsx:68 | the uploaded snackbar's `uploaded/uploads` title; `UploadedTitleInjective` states that it names both counts |
| StartFileUpload.AssetKey | src/providers/uploadsManager/useStartFileUpload.tsx:106 | the `type-id` counter key; `AssetKeyInjective` states that distinct parents get distinct keys |
| StartFileUpload.Fail | src/providers/uploadsManager/useStartFileUpload.tsx:167-186 | the `catch` block as a state transition; `MissingPayloadFails` and `FailureMarksProviderOnNetworkFailure` state its effect |
| StartFileUpload.CacheBlob | src/providers/uploadsManager/useStartFileUpload.tsx:101-104 | the `setAssetsFiles` step; `BlobCachedOnlyWhenAbsent` states when it caches |
| StartFileUpload.RecordStart | src/providers/uploadsManager/useStartFileUpload.tsx:114-121 | `addAsset` and the status reset; `StartRecordsAsset` states their effect |
| StartFileUpload.CountStart | src/providers/uploadsManager/useStartFileUpload.tsx:127-131 | the counter bumps; `StartBumpsCounters` states them |
| StartFileUpload.Begin | src/providers/uploadsManager/useStartFileUpload.tsx:81-133 | everything up to the PUT as a state transition; `NoProviderChangesNothing`, `MissingPayloadFails`, `StartRecordsAsset` and `StartBumpsCounters` state its effect |
| StartFileUpload.ApplyEvent | src/providers/uploadsManager/useStartFileUpload.tsx:123-157 | one transport callback; `ProgressTickKeepsStatus`, `RetryReconnectsOnFirstAttempt` and `EventTouchesOnlyTheAsset` state its effect |
| StartFileUpload.ApplyEvents | src/providers/uploadsManager/useStartFileUpload.tsx:123-159 | the callbacks of one PUT in order; `EventsTouchOnlyTheAsset` and `EventsReconnectOnFirstRetry` state their effect |
| StartFileUpload.Finish | src/providers/uploadsManager/useStartFileUpload.tsx:162-187 | the settlement of the PUT; `RunEndsTerminal`, `RunCountsAndReports` and `FinishKeepsInv` state its effect |
| StartFileUpload.Run | src/providers/uploadsManager/useStartFileUpload.tsx:81-188 | one whole `startFileUpload` call; `RunEndsTerminal` and `RunCountsAndReports` state its effect |
| StartFileUpload.FlushUploading | src/providers/uploadsManager/useStartFileUpload.tsx:45-58 | `displayUploadingNotification`; `FlushUploadingReports` states its title and reset |
| StartFileUpload.FlushUploaded | src/providers/uploadsManager/useStartFileUpload.tsx:61-79 | `displayUploadedNotification`; `FlushUploadedResetsOnEquality` states its title and reset |
| StartFileUpload.IsRetriedStatus | src/providers/uploadsManager/useStartFileUpload.tsx:144-149 | a response status is retried iff it is in 100-199, is 400, is 429 or is in 500-599 |
| StartFileUpload.RetryCount | src/providers/uploadsManager/useStartFileUpload.tsx:152-157 | the reported retries are at most the reported callbacks |
| StartFileUpload.RetriesWithinBudget | src/providers/uploadsManager/useStartFileUpload.tsx:139-140 | retries allowed by the policy after `done` retries never exceed the budget of 3 |
| StartFileUpload.RetryBudget | src/providers/uploadsManager/useStartFileUpload.tsx:138-149 | a PUT under the policy is retried at most 3 times, no-response retries included |
| StartFileUpload.PersistentServerError | src/providers/uploadsManager/useStartFileUpload.tsx:139-176 | a host that keeps answering a retried status is retried exactly 3 times and its final error is not a network failure |
| StartFileUpload.PersistentNoResponse | src/providers/uploadsManager/useStartFileUpload.tsx:139-176 | a host that never answers is retried exactly 3 times and its final error is a network failure |
| StartFileUpload.IsNetworkFailure | src/providers/uploadsManager/useStartFileUpload.tsx:171-174 | an error is a network failure iff it is an axios error whose response status is missing or 0; the `< 400 && >= 500` disjunct never holds |
| StartFileUpload.FailureDescription | src/providers/uploadsManager/useStartFileUpload.tsx:179 | the description is "Host is not responding" iff the error is a network failure, else "Unexpected error occurred" |
| StartFileUpload.UploadingTitleInjective | src/providers/uploadsManager/useStartFileUpload.tsx:48-51 | two uploading titles that are equal report the same positive count |
| StartFileUpload.UploadedTitleInjective | src/providers/uploadsManager/useStartFileUpload.tsx:68 | an uploaded title gives back both its completed and its started count |
| StartFileUpload.AssetKeyInjective | src/providers/uploadsManager/useStartFileUpload.tsx:106 | distinct parent objects have distinct `type-id` counter keys |
| StartFileUpload.NoProviderChangesNothing | src/providers/uploadsManager/useStartFileUpload.tsx:85-94 | without a storage provider the whole call leaves the state unchanged and starts no transfer |
| StartFileUpload.MissingPayloadFails | src/providers/uploadsManager/useStartFileUpload.tsx:101-186 | with neither a held blob nor a file, the asset ends in `error` at progress 0 with an "Unexpected error occurred" warning; nothing is added, cached, counted, requested or marked |
| StartFileUpload.BlobCachedOnlyWhenAbsent | src/providers/uploadsManager/useStartFileUpload.tsx:101-104 | the file is cached iff no blob is held for the asset and a file was passed |
| StartFileUpload.StartRecordsAsset | src/providers/uploadsManager/useStartFileUpload.tsx:114-133 | a fresh upload with a file adds the asset once with the file's size, a re-upload adds nothing, both reset progress to 0, a passed file sets `inProgress`, other entries are unchanged, and the PUT body is the held blob when changing host |
| StartFileUpload.StartBumpsCounters | src/providers/uploadsManager/useStartFileUpload.tsx:106-131 | a transfer past the payload check adds exactly 1 to the pending counter and to `uploads[key]`; other keys and the `uploaded` counters stay unchanged |
| StartFileUpload.ProgressTickKeepsStatus | src/providers/uploadsManager/useStartFileUpload.tsx:123-125 | a progress tick changes only the progress of the asset, never its status or anything else |
| StartFileUpload.RetryReconnectsOnFirstAttempt | src/providers/uploadsManager/useStartFileUpload.tsx:152-157 | attempt 1 sets `reconnecting` and keeps the progress; any other attempt changes nothing |
| StartFileUpload.EventTouchesOnlyTheAsset | src/providers/uploadsManager/useStartFileUpload.tsx:123-157 | one callback changes only the status entry of the transferring asset |
| StartFileUpload.EventsTouchOnlyTheAsset | src/providers/uploadsManager/useStartFileUpload.tsx:123-159 | over a whole PUT the callbacks change only the status entry of the transferring asset |
| StartFileUpload.EventsReconnectOnFirstRetry | src/providers/uploadsManager/useStartFileUpload.tsx:152-157 | after the callbacks the asset is `reconnecting` iff a first retry was reported, else it keeps its status |
| StartFileUpload.RunEndsTerminal | src/providers/uploadsManager/useStartFileUpload.tsx:162-170 | once the payload is known, the call ends with the asset `completed` at 100 or `error` at 0, and every other status entry is as before the call |
| StartFileUpload.RunCountsAndReports | src/providers/uploadsManager/useStartFileUpload.tsx:127-186 | the call counts one more start for the key and, on success only, one more completion; a failure marks the provider only on a network failure and adds exactly one warning |
| StartFileUpload.FailureMarksProviderOnNetworkFailure | src/providers/uploadsManager/useStartFileUpload.tsx:171-186 | after a failure a provider is marked not working iff it was already, or it is this upload's provider and the error is a network failure; the warning's description follows the same predicate |
| StartFileUpload.FlushUploadingReports | src/providers/uploadsManager/useStartFileUpload.tsx:45-58 | a due flush shows "N assets being uploaded" for N > 1, else "Asset being uploaded", then resets the counter to 0; a flush with nothing due changes nothing |
| StartFileUpload.FlushUploadedResetsOnEquality | src/providers/uploadsManager/useStartFileUpload.tsx:61-79 | the flush reports `uploaded/uploads` for its key, resets both counters of that key to 0 iff they are equal, and leaves every other key unchanged |
| StartFileUpload.InitialInv | src/providers/uploadsManager/useStartFileUpload.tsx:32-43 | the state on mount, whatever the store slices already hold, with empty refs, satisfies the counter invariant |
| StartFileUpload.BeginKeepsInv | src/providers/uploadsManager/useStartFileUpload.tsx:127-131 | starting a transfer keeps the counter invariant, and the started key has fewer completions than starts |
| StartFileUpload.EventsKeepInv | src/providers/uploadsManager/useStartFileUpload.tsx:152-159 | the transport callbacks keep the counter invariant |
| StartFileUpload.FinishKeepsInv | src/providers/uploadsManager/useStartFileUpload.tsx:162-187 | settling the in-flight transfer keeps the invariant: no key has more completions than starts |
| StartFileUpload.FlushUploadingKeepsInv | src/providers/uploadsManager/useStartFileUpload.tsx:45-58 | the uploading flush keeps the invariant |
| StartFileUpload.FlushUploadedKeepsInv | src/providers/uploadsManager/useStartFileUpload.tsx:61-79 | the uploaded flush keeps the invariant and never resets the key of an upload in flight |
| StartFileUpload.FileUploader.constructor | src/providers/uploadsManager/useStartFileUpload.tsx:32-43 | the store slices start as given (possibly persisted records), the refs start empty, nothing is in flight, and the invariant holds |
| StartFileUpload.FileUploader.FailUpload | src/providers/uploadsManager/useStartFileUpload.tsx:167-186 | the `catch` block's new state is the `Fail` transition of the old one |
| StartFileUpload.FileUploader.BeginUpload | src/providers/uploadsManager/useStartFileUpload.tsx:81-133 | up to the PUT the new state is `Begin` of the old one, the invariant holds, and the transfer in flight is the one `BeginTransfer` predicts |
| StartFileUpload.FileUploader.MarkStarted | src/providers/uploadsManager/useStartFileUpload.tsx:114-133 | recording, counting and issuing the PUT makes the `Started` transition |
| StartFileUpload.FileUploader.RecordAsset | src/providers/uploadsManager/useStartFileUpload.tsx:114-121 | `addAsset` and the status resets make the `RecordStart` transition |
| StartFileUpload.FileUploader.OnRetryAttempt | src/providers/uploadsManager/useStartFileUpload.tsx:152-157 | the retry callback applies one retry event and keeps the invariant |
| StartFileUpload.FileUploader.OnUploadProgress | src/providers/uploadsManager/useStartFileUpload.tsx:123-125 | the progress callback applies one progress event and keeps the invariant |
| StartFileUpload.FileUploader.FinishUpload | src/providers/uploadsManager/useStartFileUpload.tsx:162-187 | settling makes the `Finish` transition, keeps the invariant and clears the transfer in flight |
| StartFileUpload.FileUploader.CompleteUpload | src/providers/uploadsManager/useStartFileUpload.tsx:162-166 | success sets `completed` at 100, counts a completion and schedules the uploaded notification for the key |
| StartFileUpload.FileUploader.StartFileUpload | src/providers/uploadsManager/useStartFileUpload.tsx:81-188 | one whole call, callbacks included, makes the `Run` transition and keeps the invariant |
| StartFileUpload.FileUploader.FlushUploadingNotification | src/providers/uploadsManager/useStartFileUpload.tsx:45-58 | firing the uploading snackbar makes the `FlushUploading` transition and keeps the invariant |
| StartFileUpload.FileUploader.FlushUploadedNotification | src/providers/uploadsManager/useStartFileUpload.tsx:61-79 | firing the uploaded snackbar makes the `FlushUploaded` transition and keeps the invariant |
| LegacyUploadsManager.AllDataObjects | src/hooks/useUploadsManager/useUploadsManager.tsx:46-48 | the channel's two photo objects followed by every video's media and thumbnail objects; `JudgementFromFirstMatch` states the match over it |
| LegacyUploadsManager.WithProgress | src/hooks/useUploadsManager/useUploadsManager.tsx:41-44 | every record is kept in order, with the recorded progress or 0 when none is recorded |
| LegacyUploadsManager.VideoDataObjects | src/hooks/useUploadsManager/useUploadsManager.tsx:47 | the flat list holds each video's media object and then its thumbnail, in video order |
| LegacyUploadsManager.FirstWithContentId | src/hooks/useUploadsManager/useUploadsManager.tsx:52 | the index found is the first data object with the content id, or the end of the list when none has it |
| LegacyUploadsManager.FindDataObject | src/hooks/useUploadsManager/useUploadsManager.tsx:52 | `find` returns nothing iff no data object has the content id, else the first one that has it |
| LegacyUploadsManager.WithLiaisonJudgement | src/hooks/useUploadsManager/useUploadsManager.tsx:51-55 | each asset keeps its fields and takes the judgement and IPFS id of its first matching data object, both undefined without one |
| LegacyUploadsManager.JudgementFromFirstMatch | src/hooks/useUploadsManager/useUploadsManager.tsx:46-55 | the judgement is undefined iff no channel photo or video object matches, else it is the first match's judgement |
| LegacyUploadsManager.LostConnectionAssets | src/hooks/useUploadsManager/useUploadsManager.tsx:57-59 | the `filter` on pending judgement; `LostConnectionAssetsArePending` states what it keeps |
| LegacyUploadsManager.LostConnectionTitle | src/hooks/useUploadsManager/useUploadsManager.tsx:67-69 | the warning's title; `LostConnectionTitlePlural` and `LostConnectionTitleInjective` state its form |
| LegacyUploadsManager.LostConnectionAssetsArePending | src/hooks/useUploadsManager/useUploadsManager.tsx:57-59 | the lost-connection list holds exactly the pending assets, each as many times as it occurs in the input, in input order |
| LegacyUploadsManager.LostConnectionWarning | src/hooks/useUploadsManager/useUploadsManager.tsx:61-75 | no warning iff the count is 0; otherwise a warning titled `(N) Asset[s] waiting to resume upload` with the reconnect description and the "See assets" action |
| LegacyUploadsManager.LostConnectionTitleInjective | src/hooks/useUploadsManager/useUploadsManager.tsx:67-69 | the warning title determines the count |
| LegacyUploadsManager.LostConnectionTitlePlural | src/hooks/useUploadsManager/useUploadsManager.tsx:67-69 | the title says "Asset" for one lost asset and "Assets" for more |
| LegacyUploadsManager.VideoTitle | src/hooks/useUploadsManager/useUploadsManager.tsx:80-81 | the title of the first video whose media object has the content id, undefined without one; `WithVideoTitles` states its use |
| LegacyUploadsManager.FirstVideoWithMedia | src/hooks/useUploadsManager/useUploadsManager.tsx:80 | the index found is the first video whose media object has the content id, or the end of the list |
| LegacyUploadsManager.WithVideoTitles | src/hooks/useUploadsManager/useUploadsManager.tsx:78-84 | only `video` assets take a title, that of their video; every other asset passes through unchanged |
| LegacyUploadsManager.GroupByParentIdPartitions | src/hooks/useUploadsManager/useUploadsManager.tsx:87-93 | the groups partition the assets: each asset is in exactly one group, groups are non-empty, share one parent id and keep input order |
| LegacyUploadsManager.Enriched | src/hooks/useUploadsManager/useUploadsManager.tsx:41-84 | the enrichment chain from `uploadsState` to `uploadsStateWithVideoTitles`; `EnrichedKeepsRecords` states what it keeps |
| LegacyUploadsManager.UploadsStateProjection | src/hooks/useUploadsManager/useUploadsManager.tsx:41-93 | the published grouped uploads state; `ProjectionPartitionsUploads` states that it partitions the records |
| LegacyUploadsManager.EnrichedKeepsRecords | src/hooks/useUploadsManager/useUploadsManager.tsx:41-84 | enrichment keeps every record in order and unchanged, with its progress, and only `video` assets can gain a title |
| LegacyUploadsManager.ProjectionPartitionsUploads | src/hooks/useUploadsManager/useUploadsManager.tsx:41-93 | every persisted record appears, enriched, in exactly one published group, the group of its parent id |
| LegacyUploadsManager.StartTransfer | src/hooks/useUploadsManager/useUploadsManager.tsx:102-103 | `addAsset` with `inProgress` and the progress reset; `RunAddsRecord` states the appended record |
| LegacyUploadsManager.RetryAttempted | src/hooks/useUploadsManager/useUploadsManager.tsx:114-123 | the retry callback short of throwing; `TransferEndsInFinalStatus` states its part in the outcome |
| LegacyUploadsManager.ProgressTicked | src/hooks/useUploadsManager/useUploadsManager.tsx:125-128 | the progress callback; `TransferEndsInFinalStatus` and `SettledProgress` state its part in the outcome |
| LegacyUploadsManager.Settled | src/hooks/useUploadsManager/useUploadsManager.tsx:131-150 | how the PUT settles; `SettledProgress` and `TransferEndsInFinalStatus` state its effect |
| LegacyUploadsManager.Transfer | src/hooks/useUploadsManager/useUploadsManager.tsx:106-150 | the callbacks then the settlement, stopping at the callback that throws; `TransferEndsInFinalStatus` states its outcome |
| LegacyUploadsManager.Run | src/hooks/useUploadsManager/useUploadsManager.tsx:95-153 | one whole `startFileUpload` call; `RunAddsRecord` and `LastRetryGivesUp` state its effect |
| LegacyUploadsManager.UpdateAsset | src/hooks/useUploadsManager/useUploadsManager.tsx:117-148 | every record of the content id takes the status, and every other record is unchanged |
| LegacyUploadsManager.UpdateAssetOverrides | src/hooks/useUploadsManager/useUploadsManager.tsx:126-132 | a later status update of the same asset overrides an earlier one |
| LegacyUploadsManager.FinalStatusAfterHead | src/hooks/useUploadsManager/useUploadsManager.tsx:114-128 | a callback that does not give up leaves the outcome to the callbacks after it |
| LegacyUploadsManager.TransferEndsInFinalStatus | src/hooks/useUploadsManager/useUploadsManager.tsx:106-150 | whatever the callbacks, the transfer leaves the asset's records in `reconnectionError` (last retry reached or that error), `completed` (resolved) or `error`, touches no other record, and adds only the snackbar that status calls for |
| LegacyUploadsManager.TransferProgress | src/hooks/useUploadsManager/useUploadsManager.tsx:125-149 | the transfer changes the progress of no other asset, and an asset that ends `completed` ends at progress 100 |
| LegacyUploadsManager.RunAddsRecord | src/hooks/useUploadsManager/useUploadsManager.tsx:102-149 | a call appends exactly one record, the asset with the file's size, which ends in its final status, adds the matching snackbar, changes no other asset's progress, and leaves a completed asset at progress 100 |
| LegacyUploadsManager.LastRetryGivesUp | src/hooks/useUploadsManager/useUploadsManager.tsx:114-146 | reaching retry attempt 5, whatever its response status, ends the whole call with the new record in `reconnectionError` and exactly the "Asset failing to reconnect" warning added, however the PUT settles |
| LegacyUploadsManager.SettledProgress | src/hooks/useUploadsManager/useUploadsManager.tsx:125-149 | success sets progress 100; a failure leaves the progress where the last tick put it |
| LegacyUploadsManager.UploadManager.constructor | src/hooks/useUploadsManager/useUploadsManager.tsx:26-28 | the manager starts with the store's records as given (possibly persisted), no progress and no snackbars |
| LegacyUploadsManager.UploadManager.SetAssetStatus | src/hooks/useUploadsManager/useUploadsManager.tsx:117-148 | `updateAsset` sets the status of every record of the asset |
| LegacyUploadsManager.UploadManager.SetAssetUploadProgress | src/hooks/useUploadsManager/useUploadsManager.tsx:97-99 | sets the asset's progress and keeps every other entry |
| LegacyUploadsManager.UploadManager.BeginTransfer | src/hooks/useUploadsManager/useUploadsManager.tsx:102-103 | adds the record as `inProgress` with the file's size and sets progress 0 |
| LegacyUploadsManager.UploadManager.OnRetryAttempt | src/hooks/useUploadsManager/useUploadsManager.tsx:114-123 | attempt 1 sets `reconnecting`, and the callback throws iff the attempt is the fifth |
| LegacyUploadsManager.UploadManager.OnUploadProgress | src/hooks/useUploadsManager/useUploadsManager.tsx:125-128 | a tick sets `inProgress` again and records the progress |
| LegacyUploadsManager.UploadManager.Settle | src/hooks/useUploadsManager/useUploadsManager.tsx:131-150 | the settlement makes the `Settled` transition: `completed` at 100 with a success snackbar, `reconnectionError` with its warning, or `error` |
| LegacyUploadsManager.UploadManager.StartFileUpload | src/hooks/useUploadsManager/useUploadsManager.tsx:95-153 | one whole call, stopping at the callback that throws, makes the `Run` transition |
| MyUploadsView.MergeStatus | src/views/studio/MyUploadsView/MyUploadsView.tsx:21-25 | each record keeps its fields, shows the ephemeral progress or 0, and the ephemeral status or else its persisted `lastStatus` |
| MyUploadsView.ReloadShowsPersistedStatus | src/views/studio/MyUploadsView/MyUploadsView.tsx:23-24 | with an empty ephemeral store every record shows its persisted status at progress 0 |
| MyUploadsView.Present | src/views/studio/MyUploadsView/MyUploadsView.tsx:30-32 | keeping the non-falsy entries never lengthens the list |
| MyUploadsView.PresentCount | src/views/studio/MyUploadsView/MyUploadsView.tsx:30-32 | the fold keeps each non-falsy entry's record once per entry and nothing else: a record is kept iff some entry holds it |
| MyUploadsView.PresentEmpty | src/views/studio/MyUploadsView/MyUploadsView.tsx:30-32 | no entry is kept iff every entry is falsy |
| MyUploadsView.Lift | src/views/studio/MyUploadsView/MyUploadsView.tsx:21-25 | every merged record is a present entry |
| MyUploadsView.PresentLift | src/views/studio/MyUploadsView/MyUploadsView.tsx:21-32 | the merged list has no falsy entry, so the fold's guard never drops a record |
| MyUploadsView.GroupedUploads | src/views/studio/MyUploadsView/MyUploadsView.tsx:28-40 | the `reduce` of `groupedUploadsState`; `GroupedUploadsSkipsFalsy` and `GroupedUploadsPartition` state what it yields |
| MyUploadsView.GroupedUploadsSkipsFalsy | src/views/studio/MyUploadsView/MyUploadsView.tsx:28-40 | the fold is the grouping of the non-falsy entries |
| MyUploadsView.GroupedUploadsPartition | src/views/studio/MyUploadsView/MyUploadsView.tsx:33-39 | the groups partition the non-falsy records by parent id: non-empty, one id per group, input order kept, each record in exactly one group |
| MyUploadsView.HasUploadsIffSomeRecord | src/views/studio/MyUploadsView/MyUploadsView.tsx:42 | `hasUploads` holds iff some entry is a record |
| MyUploadsView.Bars | src/views/studio/MyUploadsView/MyUploadsView.tsx:51 | one bar per group, in group order, showing the group and keyed by its first record's parent id |
| MyUploadsView.ChooseDisplay | src/views/studio/MyUploadsView/MyUploadsView.tsx:43-54 | while loading exactly 5 placeholders; otherwise, when there are groups, the bars `Bars` builds, one per group, else the empty view |
| MyUploadsView.ViewGroups | src/views/studio/MyUploadsView/MyUploadsView.tsx:21-40 | the merged records grouped by parent id; `ViewGroupsNonEmpty` states its groups are non-empty |
| MyUploadsView.MyUploadsView | src/views/studio/MyUploadsView/MyUploadsView.tsx:21-54 | the whole view body; `ViewShowsEveryRecord` and `NoRecordsShowsEmptyView` state what it shows |
| MyUploadsView.ViewGroupsNonEmpty | src/views/studio/MyUploadsView/MyUploadsView.tsx:51 | every group shown is non-empty, so `files[0]` is defined |
| MyUploadsView.ViewShowsEveryRecord | src/views/studio/MyUploadsView/MyUploadsView.tsx:21-54 | not loading, every merged record is in exactly one bar, and that bar is keyed by the record's parent id |
| MyUploadsView.NoRecordsShowsEmptyView | src/views/studio/MyUploadsView/MyUploadsView.tsx:48-54 | without records the view shows the empty view, or 5 placeholders while loading |

## Left out

- The HTTP transport and the retry library are left out: the PUT itself,
  `createStorageNodeUrl`, the `Content-Type` header, `RETRY_DELAY` and the
  static backoff. The callbacks the transport makes and how the PUT settles
  are inputs. `WellFormedRun` states what the retry policy allows the
  transport to report.
- The timing of the debounced notifications (700 ms) and the snackbar
  timeouts are left out. Each debounced snackbar fires through an explicit
  flush method. A pending uploaded notification keeps only the key of its
  last call, as a trailing debounce does.
- `getStorageProvider` is left out: the storage providers store is not part
  of this model, and the provider it picks is an input. A throwing
  `getStorageProvider` is modelled like a missing provider, because both
  return before any change.
- The stores behind `setUploadStatus`, `setAssetsFiles`, `addAsset` and
  `updateAsset` are not part of this model:
  - `setUploadStatus` is modelled as a merge of the given fields into the
    asset's entry;
  - the blob list is modelled as a map from content id to blob;
  - the older `addAsset` is an append;
  - `updateAsset` sets the status of every record with the content id.
- `removeAsset` of the older provider is passed through unchanged, so no
  property is stated about it. Its `isLoading` is the disjunction of the two
  query loading flags; it is query state and is left out with the queries.
  The view takes `isLoading` as an input.
- Concurrency is left out. One `startFileUpload` runs at a time: the ghost
  field `inFlight` of `FileUploader` records the transfer being awaited.
- Progress values are reals. The `loaded / total * 100` arithmetic is left
  out and nothing numeric is claimed beyond the literal 0 and 100.
- The GraphQL fetches (`useChannel`, `useVideos`) and the video id filter of
  the query are left out. The fetched channel and videos are inputs.
- React state and effect scheduling are left out. The lost-connection
  warning is modelled as the snackbar the effect shows for a given count; the
  fact that the effect re-runs only when that count changes is not modelled.
- Logging, navigation callbacks and rendering are left out. A snackbar is
  modelled as its title, description, action text, icon and custom id.
- The order of groups across parent ids is not claimed. `Object.values`
  lists integer-like keys in numeric order, so the model's first-seen order
  is only one possible order. Within a group, input order is proved.
- Keys that JavaScript objects treat specially (such as `__proto__`) are
  left out. The counter and group maps treat every string as an ordinary
  key.
- StartFileUpload.IsNetworkFailure: `error.isAxiosError` is modelled by the
  `AxiosError` constructor of `UploadError`. A non-axios error cannot be a
  network failure.
