/**
 * The two record kinds the storage keeps (tables `screenshots` and
 * `queue_items`), the insert shapes callers pass in, and the partial
 * update `{ ...existing, ...updates }` applied by `updateScreenshot`.
 * Timestamps are milliseconds since the epoch; `None` is SQL/JS `null`.
 */
module Schema {
  import opened Wrappers

  /** The values the `status` column takes. */
  datatype Status = Pending | Processing | Completed | Failed

  datatype Screenshot = Screenshot(
    id: string,
    url: string,
    title: Option<string>,
    imagePath: Option<string>,
    thumbnailPath: Option<string>,
    status: Status,
    errorMessage: Option<string>,
    createdAt: Option<int>,
    userId: Option<string>)

  datatype InsertScreenshot = InsertScreenshot(url: string, userId: Option<string>)

  datatype QueueItem = QueueItem(
    id: string,
    screenshotId: string,
    position: string,
    estimatedTime: Option<string>,
    createdAt: Option<int>)

  datatype InsertQueueItem = InsertQueueItem(
    screenshotId: string,
    position: string,
    estimatedTime: Option<string>)

  /**
   * `Partial<Screenshot>`: a field is either absent (`None`) or carries its new
   * value; for a nullable field the new value may itself be `null`.
   */
  datatype ScreenshotUpdate = ScreenshotUpdate(
    id: Option<string>,
    url: Option<string>,
    title: Option<Option<string>>,
    imagePath: Option<Option<string>>,
    thumbnailPath: Option<Option<string>>,
    status: Option<Status>,
    errorMessage: Option<Option<string>>,
    createdAt: Option<Option<int>>,
    userId: Option<Option<string>>)

  const NoChanges := ScreenshotUpdate(None, None, None, None, None, None, None, None, None)

  /** `{ status }` */
  function StatusUpdate(status: Status): ScreenshotUpdate {
    NoChanges.(status := Some(status))
  }

  /** `{ status: 'failed', errorMessage }` */
  function FailedUpdate(message: string): ScreenshotUpdate {
    NoChanges.(status := Some(Failed), errorMessage := Some(Some(message)))
  }

  /** `{ status: 'completed', title, imagePath, thumbnailPath }` */
  function CompletedUpdate(title: string, imagePath: string, thumbnailPath: string): ScreenshotUpdate {
    NoChanges.(status := Some(Completed), title := Some(Some(title)),
               imagePath := Some(Some(imagePath)), thumbnailPath := Some(Some(thumbnailPath)))
  }

  /** `{ ...existing, ...updates }`: the fields present in `u` win. */
  function Apply(s: Screenshot, u: ScreenshotUpdate): (r: Screenshot)
    ensures u == NoChanges ==> r == s
  {
    Screenshot(
      u.id.GetOr(s.id),
      u.url.GetOr(s.url),
      u.title.GetOr(s.title),
      u.imagePath.GetOr(s.imagePath),
      u.thumbnailPath.GetOr(s.thumbnailPath),
      u.status.GetOr(s.status),
      u.errorMessage.GetOr(s.errorMessage),
      u.createdAt.GetOr(s.createdAt),
      u.userId.GetOr(s.userId))
  }

  /**
   * Each field of the merged record comes from the update when the update names it
   * and from the existing record otherwise.
   */
  lemma ApplyFieldwise(s: Screenshot, u: ScreenshotUpdate)
    ensures var r := Apply(s, u);
      && (u.id.Some? ==> r.id == u.id.value) && (u.id.None? ==> r.id == s.id)
      && (u.url.Some? ==> r.url == u.url.value) && (u.url.None? ==> r.url == s.url)
      && (u.title.Some? ==> r.title == u.title.value) && (u.title.None? ==> r.title == s.title)
      && (u.imagePath.Some? ==> r.imagePath == u.imagePath.value)
      && (u.imagePath.None? ==> r.imagePath == s.imagePath)
      && (u.thumbnailPath.Some? ==> r.thumbnailPath == u.thumbnailPath.value)
      && (u.thumbnailPath.None? ==> r.thumbnailPath == s.thumbnailPath)
      && (u.status.Some? ==> r.status == u.status.value) && (u.status.None? ==> r.status == s.status)
      && (u.errorMessage.Some? ==> r.errorMessage == u.errorMessage.value)
      && (u.errorMessage.None? ==> r.errorMessage == s.errorMessage)
      && (u.createdAt.Some? ==> r.createdAt == u.createdAt.value)
      && (u.createdAt.None? ==> r.createdAt == s.createdAt)
      && (u.userId.Some? ==> r.userId == u.userId.value) && (u.userId.None? ==> r.userId == s.userId)
  {
  }

  /** Merging the same update twice is merging it once. */
  lemma ApplyIdempotent(s: Screenshot, u: ScreenshotUpdate)
    ensures Apply(Apply(s, u), u) == Apply(s, u)
  {
  }
}
