/** The avatars table: one row, and the guarded statements that change it. */
module Repository {
  import opened Domain

  datatype Row = Row(
    user: string,
    upload: UploadStatus,
    processing: ProcessingStatus,
    thumbs: map<ThumbnailSize, Key>,
    retries: nat,
    createdAt: nat,
    updatedAt: nat,
    deletedAt: Option<nat>,
    filesRemovedAt: Option<nat>)
  {
    predicate Live() { deletedAt.None? }

    /** Deleted, or never uploaded: the files of such a row are to be removed. */
    predicate Closed() { deletedAt.Some? || upload == UploadFailed }

    /** Nothing is left to process: deleted, completed or failed. */
    predicate Finished() { deletedAt.Some? || Done(processing) }
  }

  /**
   * How a row may differ from an earlier state of itself. A finished status is never left, a
   * recorded moment never moves, and a deleted row is frozen except for the mark of its cleanup.
   */
  predicate Evolved(r: Row, r': Row) {
    && r'.user == r.user
    && r'.createdAt == r.createdAt
    && r.retries <= r'.retries
    && (r.upload != Uploading ==> r'.upload == r.upload)
    && (r.processing != Pending ==> r'.processing != Pending)
    && (Done(r.processing) ==> r'.processing == r.processing && r'.thumbs == r.thumbs)
    && (r.deletedAt.Some? ==>
          && r'.deletedAt == r.deletedAt && r'.upload == r.upload && r'.processing == r.processing
          && r'.thumbs == r.thumbs && r'.updatedAt == r.updatedAt)
    && (r.filesRemovedAt.Some? ==> r'.filesRemovedAt == r.filesRemovedAt)
  }

  lemma EvolvedIsTransitive(a: Row, b: Row, c: Row)
    requires Evolved(a, b) && Evolved(b, c)
    ensures Evolved(a, c)
  {
  }

  function Insert(user: string, now: nat): (r: Row)
    ensures r.Live() && !r.Closed() && !r.Finished() && r.filesRemovedAt.None?
    ensures r.user == user && r.createdAt == now && r.updatedAt == now && r.retries == 0 && r.thumbs == map[]
  {
    Row(user, Uploading, Pending, map[], 0, now, now, None, None)
  }

  /** Apart from these columns the rows are the same: statuses and keys, and the moment of the change. */
  predicate SameButStatus(r: Row, r': Row) {
    r'.(upload := r.upload, processing := r.processing, thumbs := r.thumbs, updatedAt := r.updatedAt) == r
  }

  // Each UPDATE yields the changed row, or None when its WHERE clause matches nothing.

  function SetUploadStatus(r: Row, to: UploadStatus, now: nat): (o: Option<Row>)
    ensures o.Some? ==> Evolved(r, o.value) && o.value.upload == to && o.value.updatedAt == now
    ensures o.Some? ==> SameButStatus(r, o.value) && o.value.processing == r.processing && o.value.thumbs == r.thumbs
    ensures to != Uploading ==> (o.None? <==> r.deletedAt.Some? || r.upload != Uploading)
    ensures to == Uploading ==> o.None?
  {
    if r.Live() && r.upload in UploadAllowedFrom(to) then
      Some(r.(upload := to, updatedAt := now))
    else
      None
  }

  function SetProcessingStatus(r: Row, to: ProcessingStatus, now: nat): (o: Option<Row>)
    requires to == Processing || to == ProcessingFailed
    ensures o.Some? ==> Evolved(r, o.value) && o.value.processing == to && o.value.updatedAt == now
    ensures o.Some? ==> SameButStatus(r, o.value) && o.value.upload == r.upload && o.value.thumbs == r.thumbs
    ensures o.None? <==> r.Finished()
  {
    if r.Live() && r.processing in ProcessingAllowedFrom(to) then
      Some(r.(processing := to, updatedAt := now))
    else
      None
  }

  /** Keys and status change in one statement. */
  function CompleteProcessing(r: Row, keys: map<ThumbnailSize, Key>, now: nat): (o: Option<Row>)
    ensures o.Some? ==> Evolved(r, o.value) && o.value.processing == Completed && o.value.thumbs == keys
    ensures o.Some? ==> SameButStatus(r, o.value) && o.value.upload == r.upload && o.value.updatedAt == now
    ensures o.None? <==> r.Finished() || r.processing == Pending
  {
    if r.Live() && r.processing in ProcessingAllowedFrom(Completed) then
      Some(r.(thumbs := keys, processing := Completed, updatedAt := now))
    else
      None
  }

  function IncrementRetry(r: Row, now: nat): (o: Option<Row>)
    ensures o.Some? ==> Evolved(r, o.value) && o.value.retries == r.retries + 1 && o.value.updatedAt == now
    ensures o.Some? ==> o.value.(retries := r.retries, updatedAt := r.updatedAt) == r
    ensures o.None? <==> r.deletedAt.Some?
  {
    if r.Live() then Some(r.(retries := r.retries + 1, updatedAt := now)) else None
  }

  function SoftDelete(r: Row, now: nat): (o: Option<Row>)
    ensures o.Some? ==> Evolved(r, o.value) && o.value.Closed() && o.value.Finished()
    ensures o.Some? ==> o.value.deletedAt == Some(now) && o.value.updatedAt == now
    ensures o.Some? ==> o.value.(deletedAt := None, updatedAt := r.updatedAt) == r
    ensures o.None? <==> r.deletedAt.Some?
  {
    if r.Live() then Some(r.(deletedAt := Some(now), updatedAt := now)) else None
  }

  /** Works on deleted rows too; a second mark keeps the moment of the first. */
  function MarkFilesRemoved(r: Row, now: nat): (r': Row)
    ensures Evolved(r, r') && r'.filesRemovedAt.Some? && (r.filesRemovedAt.Some? ==> r' == r)
    ensures r'.Closed() == r.Closed() && r'.Finished() == r.Finished()
    ensures r'.(filesRemovedAt := r.filesRemovedAt) == r && (r.filesRemovedAt.None? ==> r'.filesRemovedAt == Some(now))
  {
    r.(filesRemovedAt := if r.filesRemovedAt.Some? then r.filesRemovedAt else Some(now))
  }

  function FailStaleUpload(r: Row, before: nat, now: nat): (r': Row)
    ensures Evolved(r, r')
    ensures r' != r ==> r.upload == Uploading && r'.Closed()
    ensures r.upload == Uploading && r.Live() && r.updatedAt < before <==> r' != r
    ensures r' != r ==> r'.upload == UploadFailed && r'.updatedAt == now
    ensures r'.(upload := r.upload, updatedAt := r.updatedAt) == r
  {
    if r.upload == Uploading && r.Live() && r.updatedAt < before then
      r.(upload := UploadFailed, updatedAt := now)
    else
      r
  }

  /** WHERE clause of the query for uploads whose processing never began. */
  predicate Stuck(r: Row, before: nat) {
    r.upload == Uploaded && r.processing == Pending && r.Live() && r.updatedAt < before
  }

  /** WHERE clause of the query for rows whose files are still to be removed. */
  predicate Uncleaned(r: Row, before: nat) {
    r.filesRemovedAt.None? && (r.deletedAt.Some? || r.upload == UploadFailed) && r.updatedAt < before
  }
}
