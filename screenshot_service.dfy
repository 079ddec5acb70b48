/**
 * The serial screenshot service: one id at a time is taken off
 * `processingQueue`, its record in storage goes pending -> processing ->
 * completed or failed, and its queue item is removed. Every call into the
 * browser, the file system or the clock becomes an outcome the caller
 * supplies; each method runs one event of the service to its end.
 */
module SerialService {
  import opened Wrappers
  import opened Text
  import opened Sequences
  import opened InsertionMaps
  import opened Schema
  import opened Storage

  /** A value an awaited call throws: an `Error` with its message, or anything else. */
  datatype Thrown = ErrorValue(message: string) | OtherValue

  /** How `puppeteer.launch(...)` ends when the service has no browser yet. */
  datatype Launch = Launched | LaunchThrew(error: Thrown)

  /**
   * How the page work ends. `browser.newPage()` is awaited before the `try`, so a
   * page that fails to open is never closed. Once it is open, the `try` (navigating,
   * injecting the answer switch, reading the title, both captures and both file
   * writes) either succeeds or throws, and `page.close()` in the `finally` may throw
   * too, which replaces whatever the `try` ended with.
   */
  datatype Capture =
    | PageThrew(error: Thrown)
    | Captured(title: string, closeError: Option<Thrown>)
    | CaptureThrew(error: Thrown, closeError: Option<Thrown>)

  /** The `errorMessage` a failed screenshot gets. */
  function FailureMessage(e: Thrown): string {
    match e
    case ErrorValue(m) => m
    case OtherValue => "Unknown error occurred"
  }

  /**
   * `(length * 2.5).toFixed(1) + ' min'`: the queue length times two and a half
   * minutes, to one decimal.
   */
  function EstimatedTime(queueLength: nat): (r: string)
    ensures r == NatToString(queueLength * 5 / 2) + (if queueLength % 2 == 0 then ".0" else ".5") + " min"
  {
    HalvesInTenths(queueLength);
    FormatTenths(queueLength * 25) + " min"
  }

  /** Three queued jobs are announced as "7.5 min", four as "10.0 min". */
  lemma EstimatedTimeExamples()
    ensures EstimatedTime(3) == "7.5 min"
    ensures EstimatedTime(4) == "10.0 min"
  {
    assert NatToString(7) == "7";
    assert NatToString(1) == "1";
    assert NatToString(10) == NatToString(1) + "0";
  }

  /** `/screenshots/${id}.png` */
  function ImagePath(id: string): string {
    "/screenshots/" + id + ".png"
  }

  /** `/screenshots/${id}_thumb.png` */
  function ThumbnailPath(id: string): string {
    "/screenshots/" + id + "_thumb.png"
  }

  /** The error `initBrowser` throws, if any, given whether a browser is already held. */
  function LaunchError(browserOpen: bool, launch: Launch): Option<Thrown> {
    if browserOpen then None
    else match launch
      case Launched => None
      case LaunchThrew(e) => Some(e)
  }

  /** The error a take ends with once the record was found. */
  function TakeError(browserOpen: bool, launch: Launch, capture: Capture): Option<Thrown> {
    match LaunchError(browserOpen, launch)
    case Some(e) => Some(e)
    case None =>
      match capture
      case PageThrew(e) => Some(e)
      case Captured(_, closeError) => closeError
      case CaptureThrew(e, closeError) => if closeError.Some? then closeError else Some(e)
  }

  /** The `try` of `takeScreenshot` reaches its completed update: the browser and the page work succeeded. */
  predicate Completes(browserOpen: bool, launch: Launch, capture: Capture) {
    LaunchError(browserOpen, launch).None? && capture.Captured?
  }

  /** A take throws nothing exactly when it completes and its page closes cleanly. */
  lemma TakeErrorIff(browserOpen: bool, launch: Launch, capture: Capture)
    ensures TakeError(browserOpen, launch, capture).None? <==>
              Completes(browserOpen, launch, capture) && capture.closeError.None?
  {
  }

  /**
   * The record a found screenshot has when `takeScreenshot` returns or throws: processing,
   * and completed with its title and both image paths once the page work succeeded.
   */
  function Taken(before: Screenshot, id: string, browserOpen: bool, launch: Launch, capture: Capture): (r: Screenshot)
    ensures r.id == before.id && r.url == before.url && r.errorMessage == before.errorMessage
    ensures r.createdAt == before.createdAt && r.userId == before.userId
    ensures r.status == if Completes(browserOpen, launch, capture) then Completed else Processing
    ensures Completes(browserOpen, launch, capture) ==>
              && r.title == Some(capture.title)
              && r.imagePath == Some(ImagePath(id))
              && r.thumbnailPath == Some(ThumbnailPath(id))
    ensures !Completes(browserOpen, launch, capture) ==>
              r.title == before.title && r.imagePath == before.imagePath && r.thumbnailPath == before.thumbnailPath
  {
    var processing := Apply(before, StatusUpdate(Processing));
    if Completes(browserOpen, launch, capture)
    then Apply(processing, CompletedUpdate(capture.title, ImagePath(id), ThumbnailPath(id)))
    else processing
  }

  /**
   * The record a processed screenshot ends with: the taken record, marked failed with
   * the message of what was thrown. A page that closes with an error after a successful
   * capture leaves a failed record that still carries the title and both paths.
   */
  function Processed(before: Screenshot, id: string, browserOpen: bool, launch: Launch, capture: Capture): (r: Screenshot)
    ensures r.id == before.id && r.url == before.url
    ensures r.createdAt == before.createdAt && r.userId == before.userId
    ensures r.status == Completed <==> Completes(browserOpen, launch, capture) && capture.closeError.None?
    ensures Completes(browserOpen, launch, capture) ==>
              && r.title == Some(capture.title)
              && r.imagePath == Some(ImagePath(id))
              && r.thumbnailPath == Some(ThumbnailPath(id))
    ensures TakeError(browserOpen, launch, capture).Some? ==>
              && r.status == Failed
              && r.errorMessage == Some(FailureMessage(TakeError(browserOpen, launch, capture).value))
  {
    TakeErrorIff(browserOpen, launch, capture);
    var taken := Taken(before, id, browserOpen, launch, capture);
    match TakeError(browserOpen, launch, capture)
    case Some(e) => Apply(taken, FailedUpdate(FailureMessage(e)))
    case None => taken
  }

  /** `queueItems.find(item => item.screenshotId === id)`: the first item for `id`. */
  function FirstItemFor(items: seq<QueueItem>, id: string): (r: Option<QueueItem>)
    ensures r.Some? ==> exists i :: 0 <= i < |items| && items[i] == r.value && r.value.screenshotId == id
                                     && forall j :: 0 <= j < i ==> items[j].screenshotId != id
    ensures r.None? ==> forall q :: q in items ==> q.screenshotId != id
  {
    match FindIndex(items, (q: QueueItem) => q.screenshotId == id)
    case None => None
    case Some(i) => Some(items[i])
  }

  /** What `getQueueStatus()` reports. */
  datatype QueueStatus = QueueStatus(queueCount: nat, avgWaitTime: real, activeUsers: nat)

  class ScreenshotService {
    /** Whether `browser` holds a launched browser (it is `null` otherwise). */
    var browserOpen: bool
    var processingQueue: seq<string>
    var isProcessing: bool
    /** The `storage` singleton the service records its progress in. */
    const storage: VercelStorage

    /** Storage is well formed, and nothing waits in the queue while no processing runs. */
    ghost predicate Valid()
      reads this, storage
    {
      storage.Valid() && (!isProcessing ==> processingQueue == [])
    }

    constructor (storage: VercelStorage)
      requires storage.Valid()
      ensures Valid() && this.storage == storage
      ensures !browserOpen && processingQueue == [] && !isProcessing
    {
      this.storage := storage;
      browserOpen := false;
      processingQueue := [];
      isProcessing := false;
    }

    /** `initBrowser()`: launches only when no browser is held. */
    method InitBrowser(launch: Launch) returns (err: Option<Thrown>)
      modifies this`browserOpen
      ensures err == LaunchError(old(browserOpen), launch)
      ensures browserOpen == (old(browserOpen) || launch.Launched?)
    {
      err := None;
      if !browserOpen {
        match launch
        case Launched =>
          browserOpen := true;
        case LaunchThrew(e) =>
          err := Some(e);
      }
    }

    /**
     * `takeScreenshot(id)`: a missing record fails with "Screenshot not found";
     * otherwise the record becomes processing, and on success completed with its
     * title and the two image paths.
     */
    method TakeScreenshot(id: string, launch: Launch, capture: Capture) returns (err: Option<Thrown>)
      requires storage.Valid()
      modifies this`browserOpen, storage
      ensures storage.Valid()
      ensures storage.queueItems == old(storage.queueItems)
      ensures storage.screenshots.keys == old(storage.screenshots.keys)
      ensures id !in old(storage.screenshots.entries) ==>
                && err == Some(ErrorValue("Screenshot not found"))
                && storage.screenshots == old(storage.screenshots)
                && browserOpen == old(browserOpen)
      ensures id in old(storage.screenshots.entries) ==>
                var before := old(storage.screenshots.entries[id]);
                && err == TakeError(old(browserOpen), launch, capture)
                && browserOpen == (old(browserOpen) || launch.Launched?)
                && storage.screenshots.entries ==
                     old(storage.screenshots.entries)[id := Taken(before, id, old(browserOpen), launch, capture)]
    {
      var found := storage.GetScreenshot(id);
      if found.None? {
        return Some(ErrorValue("Screenshot not found"));
      }
      TakenOverProcessing(storage.screenshots.entries, id, browserOpen, launch, capture);
      var _ := storage.UpdateScreenshot(id, StatusUpdate(Processing));
      err := InitBrowser(launch);
      if err.Some? {
        return;
      }
      match capture
      case PageThrew(e) =>
        err := Some(e);
      case Captured(title, closeError) =>
        var _ := storage.UpdateScreenshot(id, CompletedUpdate(title, ImagePath(id), ThumbnailPath(id)));
        err := closeError;
      case CaptureThrew(e, closeError) =>
        err := if closeError.Some? then closeError else Some(e);
    }

    /**
     * The `try`/`catch` of `processQueue()`: takes the screenshot and, when that
     * throws, records the failure. An unknown id changes no record.
     */
    method Process(id: string, launch: Launch, capture: Capture)
      requires storage.Valid()
      modifies this`browserOpen, storage
      ensures storage.Valid()
      ensures storage.queueItems == old(storage.queueItems)
      ensures storage.screenshots.keys == old(storage.screenshots.keys)
      ensures storage.screenshots.entries ==
                if id in old(storage.screenshots.entries)
                then old(storage.screenshots.entries)[id :=
                       Processed(old(storage.screenshots.entries[id]), id, old(browserOpen), launch, capture)]
                else old(storage.screenshots.entries)
      ensures browserOpen == (old(browserOpen) || (id in old(storage.screenshots.entries) && launch.Launched?))
    {
      ghost var before, open0 := storage.screenshots.entries, browserOpen;
      var err := TakeScreenshot(id, launch, capture);
      if id in before {
        ProcessedOverTaken(before, id, open0, launch, capture, err);
      }
      if err.Some? {
        var _ := storage.UpdateScreenshot(id, FailedUpdate(FailureMessage(err.value)));
      }
    }

    /** The taken record is the record marked processing and then, when the capture completes, completed. */
    static lemma TakenOverProcessing(m: map<string, Screenshot>, id: string, browserOpen: bool, launch: Launch,
                                     capture: Capture)
      requires id in m
      ensures var processing := Apply(m[id], StatusUpdate(Processing));
              var taken := Taken(m[id], id, browserOpen, launch, capture);
              && (!Completes(browserOpen, launch, capture) ==> m[id := processing] == m[id := taken])
              && (Completes(browserOpen, launch, capture) ==>
                    m[id := processing][id := Apply(processing, CompletedUpdate(capture.title, ImagePath(id), ThumbnailPath(id)))]
                    == m[id := taken])
    {
    }

    /** Recording the thrown error over the taken record gives the processed record. */
    static lemma ProcessedOverTaken(m: map<string, Screenshot>, id: string, browserOpen: bool, launch: Launch,
                                    capture: Capture, err: Option<Thrown>)
      requires id in m && err == TakeError(browserOpen, launch, capture)
      ensures var taken := Taken(m[id], id, browserOpen, launch, capture);
              var processed := Processed(m[id], id, browserOpen, launch, capture);
              && (err.None? ==> m[id := taken] == m[id := processed])
              && (err.Some? ==> m[id := taken][id := Apply(taken, FailedUpdate(FailureMessage(err.value)))]
                                == m[id := processed])
    {
    }

    /** The end of `processQueue()`: removes the first queue item, in position order, for `id`. */
    method RemoveFirstItemFor(id: string)
      requires storage.Valid()
      modifies storage
      ensures storage.Valid()
      ensures storage.screenshots == old(storage.screenshots)
      ensures match old(FirstItemFor(storage.GetQueueItems(), id))
              case None => storage.queueItems == old(storage.queueItems)
              case Some(q) => storage.queueItems == old(storage.queueItems).Delete(q.id)
    {
      var items := storage.GetQueueItems();
      var item := FirstItemFor(items, id);
      if item.Some? {
        var _ := storage.RemoveQueueItem(item.value.id);
      }
    }

    /**
     * One run of `processQueue()`: on an empty queue it only clears `isProcessing`;
     * otherwise it takes exactly the head id, processes it and removes its first
     * queue item. The next run is the one the one-second timer starts.
     */
    method ProcessQueue(launch: Launch, capture: Capture)
      requires storage.Valid()
      modifies this, storage
      ensures Valid()
      ensures storage.screenshots.keys == old(storage.screenshots.keys)
      ensures old(processingQueue) == [] ==>
                && !isProcessing && processingQueue == [] && browserOpen == old(browserOpen)
                && storage.screenshots == old(storage.screenshots)
                && storage.queueItems == old(storage.queueItems)
      ensures old(processingQueue) != [] ==>
                var id := old(processingQueue)[0];
                && isProcessing
                && processingQueue == old(processingQueue)[1..]
                && browserOpen == (old(browserOpen) || (id in old(storage.screenshots.entries) && launch.Launched?))
                && storage.screenshots.entries ==
                     (if id in old(storage.screenshots.entries)
                      then old(storage.screenshots.entries)[id :=
                             Processed(old(storage.screenshots.entries[id]), id, old(browserOpen), launch, capture)]
                      else old(storage.screenshots.entries))
                && match old(FirstItemFor(storage.GetQueueItems(), id))
                   case None => storage.queueItems == old(storage.queueItems)
                   case Some(q) => storage.queueItems == old(storage.queueItems).Delete(q.id)
    {
      if |processingQueue| == 0 {
        isProcessing := false;
        return;
      }
      isProcessing := true;
      var id := processingQueue[0];
      processingQueue := processingQueue[1..];
      Process(id, launch, capture);
      RemoveFirstItemFor(id);
    }

    /** `getQueueStatus()`: the number of queue items and two figures of `getStats()`. */
    function GetQueueStatus(): (st: QueueStatus)
      reads this, storage
      requires storage.Valid()
      ensures st.queueCount == |storage.queueItems.entries|
      ensures st.avgWaitTime == AverageMinutes
      ensures st.activeUsers == |set k | k in storage.screenshots.entries :: storage.screenshots.entries[k].userId|
      ensures st.activeUsers <= |storage.screenshots.entries|
      ensures |storage.screenshots.entries| > 0 ==> st.activeUsers >= 1
    {
      var items := storage.GetQueueItems();
      var stats := storage.GetStats();
      QueueStatus(|items|, stats.avgTime, stats.activeUsers)
    }

    /**
     * `addToQueue(id)`: appends `id`, records a queue item whose position is the new
     * queue length and whose estimate is that length times 2.5 minutes, and starts
     * processing when none is running.
     */
    method AddToQueue(screenshotId: string, itemId: string, now: int, launch: Launch, capture: Capture)
      requires Valid()
      modifies this, storage
      ensures Valid()
      ensures old(isProcessing) ==>
                var n := |old(processingQueue)| + 1;
                && isProcessing && browserOpen == old(browserOpen)
                && processingQueue == old(processingQueue) + [screenshotId]
                && storage.screenshots == old(storage.screenshots)
                && storage.queueItems == old(storage.queueItems).Set(itemId,
                     QueueItem(itemId, screenshotId, NatToString(n), Some(EstimatedTime(n)), Some(now)))
                && PositionKey(storage.queueItems.entries[itemId]) == |processingQueue|
      ensures !old(isProcessing) ==>
                && isProcessing && processingQueue == []
                && browserOpen == (old(browserOpen) || (screenshotId in old(storage.screenshots.entries) && launch.Launched?))
                && storage.screenshots.keys == old(storage.screenshots.keys)
                && storage.screenshots.entries ==
                     (if screenshotId in old(storage.screenshots.entries)
                      then old(storage.screenshots.entries)[screenshotId :=
                             Processed(old(storage.screenshots.entries[screenshotId]), screenshotId,
                                       old(browserOpen), launch, capture)]
                      else old(storage.screenshots.entries))
    {
      processingQueue := processingQueue + [screenshotId];
      var n := |processingQueue|;
      var item := storage.CreateQueueItem(InsertQueueItem(screenshotId, NatToString(n), Some(EstimatedTime(n))), itemId, now);
      ParseIntNatToString(n);
      if !isProcessing {
        ProcessQueue(launch, capture);
      }
    }

    /**
     * `cleanup()`: closes and forgets the browser. A close that throws leaves the
     * handle in place, since the assignment to `null` comes after the awaited close.
     */
    method Cleanup(closeError: Option<Thrown>) returns (err: Option<Thrown>)
      modifies this`browserOpen
      ensures !old(browserOpen) ==> err == None && !browserOpen
      ensures old(browserOpen) ==> err == closeError && browserOpen == closeError.Some?
    {
      err := None;
      if browserOpen {
        if closeError.Some? {
          err := closeError;
          return;
        }
        browserOpen := false;
      }
    }
  }
}
