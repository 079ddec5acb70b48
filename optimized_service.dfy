/**
 * The bounded-concurrency screenshot service: jobs wait in a FIFO `queue`, at
 * most `MaxConcurrency` of them render at once (`activePages`), and a browser
 * that crashes is relaunched unless `browserRestarts` has reached its ceiling.
 *
 * Every job is identified by a ticket, the model of the promise
 * `takeScreenshot` returns; `settled` records how each promise was settled.
 * Each method is one turn of the event loop: an enqueue, a dispatch, one pass
 * of `processScreenshot` (whose settling runs the `.finally` completion step),
 * a disconnect of the browser, or `cleanup`.
 */
module OptimizedService {
  import opened Wrappers
  import opened Text

  const MaxConcurrency: int := 3
  const MaxBrowserRestarts: int := 3

  /** A job: the page to capture and the file to write. */
  datatype QueueItem = QueueItem(ticket: nat, url: string, outputPath: string)

  /** How a job's promise was settled: `resolve(true)` or `reject(new Error(message))`. */
  datatype Settlement = Resolved | Rejected(message: string)

  datatype BrowserHandle = BrowserHandle(connected: bool)

  /** How a call to `puppeteer.launch(...)` ends; a thrown value is its message. */
  datatype LaunchOutcome = LaunchOk | LaunchFailed(message: string)

  /** How the page work of one pass ends, from `newPage` to the compressed file write. */
  datatype RenderOutcome = RenderOk | RenderFailed(message: string)

  /** What the request-interception handler does with a request. */
  datatype RequestAction = Abort | Continue

  /** What `getStatus()` reports. */
  datatype ServiceStatus = ServiceStatus(
    queueLength: nat,
    activePages: int,
    maxConcurrency: int,
    browserConnected: bool,
    browserRestarts: int)

  /** The resource types the mobile pages never load. */
  const BlockedResourceTypes: set<string> := {"stylesheet", "font", "image", "media"}

  /** The request handler installed on every page. */
  function InterceptRequest(resourceType: string): (a: RequestAction)
    ensures a == Abort <==> resourceType in BlockedResourceTypes
  {
    if resourceType in BlockedResourceTypes then Abort else Continue
  }

  /** Scripts, documents and data requests still load; the four heavy types do not. */
  lemma InterceptRequestExamples()
    ensures InterceptRequest("document") == Continue
    ensures InterceptRequest("script") == Continue
    ensures InterceptRequest("xhr") == Continue
    ensures InterceptRequest("image") == Abort && InterceptRequest("font") == Abort
  {
  }

  /**
   * An error whose message names a broken DevTools connection is taken for a browser
   * crash: one of the two phrases occurs in it somewhere.
   */
  function IsBrowserCrash(message: string): (b: bool)
    ensures b <==> exists i :: OccursAt(message, "Protocol error", i) || OccursAt(message, "Session closed", i)
  {
    ContainsIff(message, "Protocol error");
    ContainsIff(message, "Session closed");
    Contains(message, "Protocol error") || Contains(message, "Session closed")
  }

  /** A message that starts with "Protocol error" is taken for a crash, whatever follows. */
  lemma ProtocolErrorIsCrash(rest: string)
    ensures IsBrowserCrash("Protocol error" + rest)
  {
    assert StartsWith("Protocol error" + rest, "Protocol error");
  }

  /**
   * A message with neither a capital P nor a capital S, such as a navigation
   * timeout, is not taken for a crash: its job is rejected without a restart.
   */
  lemma NoCrashWithoutCapitals(message: string)
    requires 'P' !in message && 'S' !in message
    ensures !IsBrowserCrash(message)
  {
    ContainsChar(message, 'P');
    ContainsChar(message, 'S');
    ContainsPrefix(message, "Protocol error", ['P']);
    ContainsPrefix(message, "Session closed", ['S']);
  }

  /** Whatever contains `sub` contains every prefix of it. */
  lemma {:induction false} ContainsPrefix(s: string, sub: string, prefix: string)
    requires StartsWith(sub, prefix)
    ensures Contains(s, sub) ==> Contains(s, prefix)
    decreases |s|
  {
    if StartsWith(s, sub) {
      assert s[..|prefix|] == s[..|sub|][..|prefix|];
    }
    if |s| > 0 {
      ContainsPrefix(s[1..], sub, prefix);
    }
  }

  /** `Browser crashed ${maxBrowserRestarts} times, giving up` */
  function GiveUpMessage(): string {
    "Browser crashed " + NatToString(MaxBrowserRestarts) + " times, giving up"
  }

  lemma GiveUpMessageValue()
    ensures GiveUpMessage() == "Browser crashed 3 times, giving up"
  {
    assert NatToString(3) == "3";
  }

  /** `Browser restart failed: ${message}` */
  function RestartFailed(message: string): string {
    "Browser restart failed: " + message
  }

  /** The error a pass hits first: the launch (only when no connected browser is held), then the render. */
  function AttemptError(connected: bool, launch: LaunchOutcome, render: RenderOutcome): Option<string> {
    if !connected && launch.LaunchFailed? then Some(launch.message)
    else match render
      case RenderOk => None
      case RenderFailed(m) => Some(m)
  }

  /** How one pass of `processScreenshot` ends: its promise settles, or a relaunch succeeded and it runs again. */
  datatype PassEnd = Settles(settlement: Settlement) | Retries

  /**
   * The end of one pass, from whether a connected browser is held, the restart
   * counter, and the outcomes of the launch, the render and the relaunch. A job runs
   * again only after an error classified as a crash and a relaunch that succeeded; a
   * pass without error resolves, and any other error rejects the job with that
   * error's own message.
   */
  function EndOfPass(connected: bool, restarts: int, launch: LaunchOutcome, render: RenderOutcome,
                     relaunch: LaunchOutcome): (end: PassEnd)
    ensures var e := AttemptError(connected, launch, render);
            && (end == Settles(Resolved) <==> e.None?)
            && (end.Retries? ==> e.Some? && IsBrowserCrash(e.value) && relaunch.LaunchOk?)
            && (e.Some? && !IsBrowserCrash(e.value) ==> end == Settles(Rejected(e.value)))
  {
    match AttemptError(connected, launch, render)
    case None => Settles(Resolved)
    case Some(m) =>
      if !IsBrowserCrash(m) then Settles(Rejected(m))
      else
        var restartsAtCrash := if !connected && launch.LaunchOk? then 0 else restarts;
        if restartsAtCrash >= MaxBrowserRestarts then Settles(Rejected(RestartFailed(GiveUpMessage())))
        else match relaunch
          case LaunchOk => Retries
          case LaunchFailed(m') => Settles(Rejected(RestartFailed(m')))
  }

  /** `this.browser?.connected || false` for a given handle. */
  predicate IsConnected(browser: Option<BrowserHandle>) {
    browser.Some? && browser.value.connected
  }

  /**
   * The browser and restart counter after `initBrowser()`: a connected browser is
   * kept; otherwise a successful launch holds a new one and resets the counter, and
   * a failed launch changes neither.
   */
  function AfterInit(browser: Option<BrowserHandle>, restarts: int, launch: LaunchOutcome): (Option<BrowserHandle>, int) {
    if IsConnected(browser) then (browser, restarts)
    else if launch.LaunchOk? then (Some(BrowserHandle(true)), 0)
    else (browser, restarts)
  }

  /**
   * The browser and restart counter after one pass: those after `initBrowser()`,
   * unless the pass hit a crash below the ceiling, in which case the relaunch either
   * holds a new browser with the counter reset or leaves none with one more restart
   * counted. A pass that resolves holds a connected browser, a retry holds a fresh
   * one, and the counter bounds the service keeps are preserved.
   */
  function AfterPass(browser: Option<BrowserHandle>, restarts: int, launch: LaunchOutcome, render: RenderOutcome,
                     relaunch: LaunchOutcome): (r: (Option<BrowserHandle>, int))
    ensures 0 <= restarts <= MaxBrowserRestarts && (restarts > 0 ==> browser.None?) ==>
              0 <= r.1 <= MaxBrowserRestarts && (r.1 > 0 ==> r.0.None?)
    ensures EndOfPass(IsConnected(browser), restarts, launch, render, relaunch) == Settles(Resolved) ==>
              IsConnected(r.0)
    ensures EndOfPass(IsConnected(browser), restarts, launch, render, relaunch).Retries? ==>
              r == (Some(BrowserHandle(true)), 0)
  {
    var (b, n) := AfterInit(browser, restarts, launch);
    match AttemptError(IsConnected(browser), launch, render)
    case None => (b, n)
    case Some(m) =>
      if IsBrowserCrash(m) && n < MaxBrowserRestarts then
        if relaunch.LaunchOk? then (Some(BrowserHandle(true)), 0) else (None, n + 1)
      else (b, n)
  }

  /**
   * A crash below the ceiling, whether the launch or the page work threw it, whose
   * relaunch fails counts one restart, leaves no browser and rejects the job with the
   * relaunch's error.
   */
  lemma FailedRelaunchCounts(browser: Option<BrowserHandle>, restarts: int, launch: LaunchOutcome,
                             render: RenderOutcome, message: string)
    requires var e := AttemptError(IsConnected(browser), launch, render);
             e.Some? && IsBrowserCrash(e.value)
    requires AfterInit(browser, restarts, launch).1 < MaxBrowserRestarts
    ensures AfterPass(browser, restarts, launch, render, LaunchFailed(message)) ==
              (None, AfterInit(browser, restarts, launch).1 + 1)
    ensures EndOfPass(IsConnected(browser), restarts, launch, render, LaunchFailed(message)) ==
              Settles(Rejected(RestartFailed(message)))
  {
  }

  /** The usual case: a connected browser, page work that crashes, and a relaunch that fails. */
  lemma RenderCrashFailedRelaunch(restarts: int, launch: LaunchOutcome, m: string, message: string)
    requires restarts < MaxBrowserRestarts && IsBrowserCrash(m)
    ensures AfterPass(Some(BrowserHandle(true)), restarts, launch, RenderFailed(m), LaunchFailed(message)) ==
              (None, restarts + 1)
  {
    FailedRelaunchCounts(Some(BrowserHandle(true)), restarts, launch, RenderFailed(m), message);
  }

  /**
   * There is no per-job bound on retries: with a connected browser, a render that
   * keeps crashing and relaunches that keep succeeding, every pass retries, and the
   * pass leaves the browser connected with the counter back at zero.
   */
  lemma CrashAfterGoodLaunchAlwaysRetries(launch: LaunchOutcome, m: string)
    requires IsBrowserCrash(m)
    ensures EndOfPass(true, 0, launch, RenderFailed(m), LaunchOk) == Retries
    ensures EndOfPass(false, MaxBrowserRestarts, LaunchOk, RenderFailed(m), LaunchOk) == Retries
  {
  }

  /** Once the counter is at its ceiling, a launch that fails with a crash message gives the job up. */
  lemma GivesUpAtCeiling(restarts: int, m: string, render: RenderOutcome, relaunch: LaunchOutcome)
    requires restarts >= MaxBrowserRestarts && IsBrowserCrash(m)
    ensures EndOfPass(false, restarts, LaunchFailed(m), render, relaunch) ==
              Settles(Rejected(RestartFailed(GiveUpMessage())))
  {
  }

  /**
   * The ticket bookkeeping: at most `MaxConcurrency` jobs run, the queue holds the
   * `|queue|` most recent tickets in the order they were issued, and every older
   * ticket is either in flight or settled, never both.
   */
  ghost predicate TicketsOk(queue: seq<QueueItem>, activePages: int, inFlight: map<nat, QueueItem>,
                            settled: map<nat, Settlement>, nextTicket: nat)
  {
    && 0 <= activePages <= MaxConcurrency
    && |queue| <= nextTicket
    && (forall i {:trigger queue[i].ticket} :: 0 <= i < |queue| ==> queue[i].ticket == nextTicket - |queue| + i)
    && |inFlight| == activePages
    && (forall t :: t in inFlight ==> t < nextTicket - |queue| && t !in settled && inFlight[t].ticket == t)
    && (forall t :: t in settled ==> t < nextTicket - |queue|)
    && (forall t :: 0 <= t < nextTicket - |queue| ==> t in inFlight || t in settled)
  }

  /** `inFlight` after the jobs `items` were dispatched, in order. */
  ghost function Dispatched(inFlight: map<nat, QueueItem>, items: seq<QueueItem>): map<nat, QueueItem>
    decreases |items|
  {
    if items == [] then inFlight
    else Dispatched(inFlight, items[..|items| - 1])[items[|items| - 1].ticket := items[|items| - 1]]
  }

  lemma DispatchedSnoc(inFlight: map<nat, QueueItem>, items: seq<QueueItem>, item: QueueItem)
    ensures Dispatched(inFlight, items + [item]) == Dispatched(inFlight, items)[item.ticket := item]
  {
    assert (items + [item])[..|items|] == items;
  }

  /** A new job at the tail takes the next ticket. */
  lemma EnqueueKeepsTickets(queue: seq<QueueItem>, activePages: int, inFlight: map<nat, QueueItem>,
                            settled: map<nat, Settlement>, nextTicket: nat, url: string, outputPath: string)
    requires TicketsOk(queue, activePages, inFlight, settled, nextTicket)
    ensures TicketsOk(queue + [QueueItem(nextTicket, url, outputPath)], activePages, inFlight, settled, nextTicket + 1)
  {
  }

  /** Moving the head into flight takes a free slot. */
  lemma DispatchKeepsTickets(queue: seq<QueueItem>, activePages: int, inFlight: map<nat, QueueItem>,
                             settled: map<nat, Settlement>, nextTicket: nat)
    requires TicketsOk(queue, activePages, inFlight, settled, nextTicket)
    requires queue != [] && activePages < MaxConcurrency
    ensures queue[0].ticket !in inFlight && queue[0].ticket !in settled
    ensures TicketsOk(queue[1..], activePages + 1, inFlight[queue[0].ticket := queue[0]], settled, nextTicket)
  {
    var x, q := queue[0], queue[1..];
    var f := inFlight[x.ticket := x];
    assert x.ticket == nextTicket - |queue|;
    assert |f| == |inFlight| + 1;
    forall i | 0 <= i < |q| ensures q[i].ticket == nextTicket - |q| + i {
      assert q[i] == queue[i + 1];
    }
    forall t | 0 <= t < nextTicket - |q| ensures t in f || t in settled {
      if t != x.ticket {
        assert t < nextTicket - |queue|;
      }
    }
  }

  /** Dispatching the first `k` jobs of the queue, one after the other, keeps the bookkeeping. */
  lemma {:induction false} DispatchManyKeepsTickets(queue: seq<QueueItem>, activePages: int,
                                                    inFlight: map<nat, QueueItem>, settled: map<nat, Settlement>,
                                                    nextTicket: nat, k: nat)
    requires TicketsOk(queue, activePages, inFlight, settled, nextTicket)
    requires k <= |queue| && activePages + k <= MaxConcurrency
    ensures TicketsOk(queue[k..], activePages + k, Dispatched(inFlight, queue[..k]), settled, nextTicket)
  {
    if k == 0 {
      assert queue[..0] == [] && queue[0..] == queue;
    } else {
      DispatchManyKeepsTickets(queue, activePages, inFlight, settled, nextTicket, k - 1);
      var rest := queue[k - 1..];
      DispatchKeepsTickets(rest, activePages + k - 1, Dispatched(inFlight, queue[..k - 1]), settled, nextTicket);
      assert rest[0] == queue[k - 1] && rest[1..] == queue[k..];
      assert queue[..k] == queue[..k - 1] + [queue[k - 1]];
      DispatchedSnoc(inFlight, queue[..k - 1], queue[k - 1]);
    }
  }

  /** Settling a job in flight frees its slot. */
  lemma SettleKeepsTickets(queue: seq<QueueItem>, activePages: int, inFlight: map<nat, QueueItem>,
                           settled: map<nat, Settlement>, nextTicket: nat, ticket: nat, s: Settlement)
    requires TicketsOk(queue, activePages, inFlight, settled, nextTicket)
    requires ticket in inFlight
    ensures TicketsOk(queue, activePages - 1, inFlight - {ticket}, settled[ticket := s], nextTicket)
  {
    assert |inFlight - {ticket}| == |inFlight| - 1;
  }

  /** Rejecting every waiting job settles the tickets still in the queue and leaves it empty. */
  lemma CancelAllKeepsTickets(queue: seq<QueueItem>, activePages: int, inFlight: map<nat, QueueItem>,
                              settled: map<nat, Settlement>, nextTicket: nat, settled': map<nat, Settlement>)
    requires TicketsOk(queue, activePages, inFlight, settled, nextTicket)
    requires forall t :: t in settled' <==> t in settled || nextTicket - |queue| <= t < nextTicket
    ensures TicketsOk([], activePages, inFlight, settled', nextTicket)
  {
  }

  class OptimizedScreenshotService {
    var browser: Option<BrowserHandle>
    var queue: seq<QueueItem>
    var isProcessing: bool
    var activePages: int
    var browserRestarts: int
    /** The promise each settled ticket ended with. */
    var settled: map<nat, Settlement>
    /** The ticket the next `takeScreenshot` hands out. */
    var nextTicket: nat
    /** The jobs dispatched and not yet settled: the pending `processScreenshot` calls. */
    ghost var inFlight: map<nat, QueueItem>

    /** The number of tickets that have left the queue (dispatched or cancelled). */
    ghost function Taken(): int
      reads this
    {
      nextTicket - |queue|
    }

    /** `this.browser?.connected || false` */
    function Connected(): bool
      reads this
    {
      IsConnected(browser)
    }

    /** The tickets are accounted for, and a restart count above zero means no browser is held. */
    ghost predicate Bookkeeping()
      reads this
    {
      && TicketsOk(queue, activePages, inFlight, settled, nextTicket)
      && 0 <= browserRestarts <= MaxBrowserRestarts
      && (browserRestarts > 0 ==> browser.None?)
    }

    /** Between events: bookkeeping holds, no dispatch loop runs, and no slot idles while a job waits. */
    ghost predicate Valid()
      reads this
    {
      Bookkeeping() && !isProcessing && (|queue| > 0 ==> activePages == MaxConcurrency)
    }

    constructor ()
      ensures Valid()
      ensures browser == None && queue == [] && activePages == 0 && browserRestarts == 0
      ensures settled == map[] && nextTicket == 0
    {
      browser := None;
      queue := [];
      isProcessing := false;
      activePages := 0;
      browserRestarts := 0;
      settled := map[];
      nextTicket := 0;
      inFlight := map[];
    }

    /**
     * `takeScreenshot(url, outputPath)`: appends a job at the tail and dispatches;
     * the job starts at once exactly when a slot is free.
     */
    method TakeScreenshot(url: string, outputPath: string) returns (ticket: nat)
      requires Valid()
      modifies this
      ensures Valid()
      ensures ticket == old(nextTicket) && nextTicket == ticket + 1
      ensures settled == old(settled) && browser == old(browser) && browserRestarts == old(browserRestarts)
      ensures old(activePages) < MaxConcurrency ==>
                && queue == []
                && activePages == old(activePages) + 1
                && inFlight == old(inFlight)[ticket := QueueItem(ticket, url, outputPath)]
      ensures old(activePages) >= MaxConcurrency ==>
                && queue == old(queue) + [QueueItem(ticket, url, outputPath)]
                && activePages == old(activePages)
                && inFlight == old(inFlight)
    {
      ticket := nextTicket;
      var item := QueueItem(ticket, url, outputPath);
      EnqueueKeepsTickets(queue, activePages, inFlight, settled, nextTicket, url, outputPath);
      queue := queue + [item];
      nextTicket := nextTicket + 1;
      ghost var pushed := queue;
      ghost var dispatched := ProcessQueue();
      if old(activePages) < MaxConcurrency {
        assert pushed[..1] == [item] && [item][..0] == [];
      }
    }

    /**
     * `processQueue()`: unless a dispatch loop is already running, moves the first
     * `dispatched` jobs from the head of the queue into flight, one per free slot.
     * Afterwards the queue is empty or every slot is taken.
     */
    method ProcessQueue() returns (ghost dispatched: nat)
      requires Bookkeeping()
      modifies this`queue, this`isProcessing, this`activePages, this`inFlight
      ensures Bookkeeping()
      ensures old(isProcessing) ==> dispatched == 0 && queue == old(queue) && isProcessing
      ensures !old(isProcessing) ==> !isProcessing && (|queue| == 0 || activePages == MaxConcurrency)
      ensures dispatched <= |old(queue)| && activePages == old(activePages) + dispatched
      ensures queue == old(queue)[dispatched..]
      ensures inFlight == Dispatched(old(inFlight), old(queue)[..dispatched])
    {
      if isProcessing || |queue| == 0 {
        assert old(queue)[..0] == [];
        return 0;
      }
      isProcessing := true;
      ghost var q0, a0, f0 := queue, activePages, inFlight;
      dispatched := DispatchWhileFree();
      DispatchManyKeepsTickets(q0, a0, f0, settled, nextTicket, dispatched);
      isProcessing := false;
    }

    /**
     * The `while` loop of `processQueue()`. The jobs it moves into flight are recorded
     * in `inFlight` once the loop is done.
     */
    method DispatchWhileFree() returns (ghost k: nat)
      requires 0 <= activePages <= MaxConcurrency
      modifies this`queue, this`activePages, this`inFlight
      ensures k <= |old(queue)| && activePages == old(activePages) + k <= MaxConcurrency
      ensures |queue| == 0 || activePages == MaxConcurrency
      ensures queue == old(queue)[k..]
      ensures inFlight == Dispatched(old(inFlight), old(queue)[..k])
    {
      ghost var q0, a0, f0 := queue, activePages, inFlight;
      k := 0;
      while |queue| > 0 && activePages < MaxConcurrency
        invariant 0 <= k <= |q0| && activePages == a0 + k <= MaxConcurrency
        invariant queue == q0[k..]
        decreases |queue|
      {
        assert queue[1..] == q0[k + 1..];
        queue := queue[1..];
        activePages := activePages + 1;
        k := k + 1;
      }
      inFlight := Dispatched(f0, q0[..k]);
    }

    /**
     * `initBrowser()`: keeps a connected browser; otherwise launches one, and a
     * successful launch resets the restart counter. A failed launch leaves both as they were.
     */
    method InitBrowser(launch: LaunchOutcome) returns (err: Option<string>)
      modifies this`browser, this`browserRestarts
      ensures old(Connected()) ==> err == None && browser == old(browser) && browserRestarts == old(browserRestarts)
      ensures !old(Connected()) && launch.LaunchOk? ==>
                err == None && browser == Some(BrowserHandle(true)) && browserRestarts == 0
      ensures !old(Connected()) && launch.LaunchFailed? ==>
                err == Some(launch.message) && browser == old(browser) && browserRestarts == old(browserRestarts)
    {
      if Connected() {
        return None;
      }
      match launch
      case LaunchOk =>
        browser := Some(BrowserHandle(true));
        browserRestarts := 0;
        err := None;
      case LaunchFailed(m) =>
        err := Some(m);
    }

    /**
     * `handleBrowserCrash()`: at or above the ceiling it gives up without touching the
     * counter; otherwise it counts one restart, drops the browser and launches a new one.
     */
    method HandleBrowserCrash(relaunch: LaunchOutcome) returns (err: Option<string>)
      modifies this`browser, this`browserRestarts
      ensures old(browserRestarts) >= MaxBrowserRestarts ==>
                err == Some(GiveUpMessage()) && browser == old(browser) && browserRestarts == old(browserRestarts)
      ensures old(browserRestarts) < MaxBrowserRestarts && relaunch.LaunchOk? ==>
                err == None && browser == Some(BrowserHandle(true)) && browserRestarts == 0
      ensures old(browserRestarts) < MaxBrowserRestarts && relaunch.LaunchFailed? ==>
                err == Some(relaunch.message) && browser == None && browserRestarts == old(browserRestarts) + 1
    {
      if browserRestarts >= MaxBrowserRestarts {
        return Some(GiveUpMessage());
      }
      browserRestarts := browserRestarts + 1;
      browser := None;
      err := InitBrowser(relaunch);
    }

    /**
     * The `.finally` of a dispatched job, after its promise settled: frees the slot and,
     * when jobs wait, dispatches the head into it.
     */
    method Finish(ticket: nat, settlement: Settlement)
      requires Valid() && ticket in inFlight
      modifies this`queue, this`isProcessing, this`activePages, this`inFlight, this`settled
      ensures Valid()
      ensures settled == old(settled)[ticket := settlement]
      ensures ticket !in inFlight
      ensures old(queue) == [] ==>
                queue == [] && activePages == old(activePages) - 1 && inFlight == old(inFlight) - {ticket}
      ensures old(queue) != [] ==>
                && queue == old(queue)[1..]
                && activePages == old(activePages)
                && inFlight == (old(inFlight) - {ticket})[old(queue)[0].ticket := old(queue)[0]]
    {
      SettleKeepsTickets(queue, activePages, inFlight, settled, nextTicket, ticket, settlement);
      settled := settled[ticket := settlement];
      inFlight := inFlight - {ticket};
      activePages := activePages - 1;
      if |queue| > 0 {
        ghost var head := queue[0];
        ghost var dispatched := ProcessQueue();
        assert old(queue)[..1] == [head] && [head][..0] == [];
      }
    }

    /**
     * One pass of `processScreenshot` for a job in flight. It settles the job as
     * `EndOfPass` says and then runs the completion step, or, after a crash and a
     * successful relaunch, leaves the job in flight for its next pass.
     */
    method ProcessScreenshot(ticket: nat, launch: LaunchOutcome, render: RenderOutcome, relaunch: LaunchOutcome)
      returns (retrying: bool)
      requires Valid() && ticket in inFlight
      modifies this
      ensures Valid()
      ensures nextTicket == old(nextTicket)
      ensures (browser, browserRestarts) == AfterPass(old(browser), old(browserRestarts), launch, render, relaunch)
      ensures var end := EndOfPass(old(Connected()), old(browserRestarts), launch, render, relaunch);
              && (retrying <==> end.Retries?)
              && (end.Retries? ==>
                    && settled == old(settled) && queue == old(queue) && inFlight == old(inFlight)
                    && activePages == old(activePages) && Connected() && browserRestarts == 0)
              && (end.Settles? ==>
                    && settled == old(settled)[ticket := end.settlement]
                    && ticket !in inFlight
                    && (old(queue) == [] ==>
                          queue == [] && activePages == old(activePages) - 1 && inFlight == old(inFlight) - {ticket})
                    && (old(queue) != [] ==>
                          && queue == old(queue)[1..] && activePages == old(activePages)
                          && inFlight == (old(inFlight) - {ticket})[old(queue)[0].ticket := old(queue)[0]]))
    {
      var end := PassOverBrowser(launch, render, relaunch);
      match end
      case Retries =>
        return true;
      case Settles(s) =>
        Finish(ticket, s);
        return false;
    }

    /**
     * The browser side of one pass: launch if needed, render, and on a crash try one
     * relaunch. It reports how the pass ends and touches nothing but the browser and
     * the restart counter.
     */
    method PassOverBrowser(launch: LaunchOutcome, render: RenderOutcome, relaunch: LaunchOutcome)
      returns (end: PassEnd)
      requires 0 <= browserRestarts <= MaxBrowserRestarts && (browserRestarts > 0 ==> browser.None?)
      modifies this`browser, this`browserRestarts
      ensures 0 <= browserRestarts <= MaxBrowserRestarts && (browserRestarts > 0 ==> browser.None?)
      ensures end == EndOfPass(old(Connected()), old(browserRestarts), launch, render, relaunch)
      ensures (browser, browserRestarts) == AfterPass(old(browser), old(browserRestarts), launch, render, relaunch)
      ensures end.Retries? ==> Connected() && browserRestarts == 0
    {
      var err := InitBrowser(launch);
      if err.None? {
        match render
        case RenderOk =>
        case RenderFailed(m) =>
          err := Some(m);
      }
      if err.None? {
        return Settles(Resolved);
      }
      var message := err.value;
      if !IsBrowserCrash(message) {
        return Settles(Rejected(message));
      }
      var restartErr := HandleBrowserCrash(relaunch);
      if restartErr.None? {
        return Retries;
      }
      return Settles(Rejected(RestartFailed(restartErr.value)));
    }

    /** The browser process dies or its connection drops: the handle stays but is no longer connected. */
    method BrowserDisconnected()
      requires Valid()
      modifies this`browser
      ensures Valid()
      ensures !Connected()
      ensures browser.Some? <==> old(browser).Some?
    {
      if browser.Some? {
        browser := Some(BrowserHandle(false));
      }
    }

    /** `getStatus()` */
    function GetStatus(): (st: ServiceStatus)
      reads this
      ensures st.queueLength == |queue| && st.activePages == activePages
      ensures st.maxConcurrency == MaxConcurrency && st.browserConnected == Connected()
      ensures st.browserRestarts == browserRestarts
      ensures Valid() ==>
                && 0 <= st.activePages <= st.maxConcurrency
                && 0 <= st.browserRestarts <= MaxBrowserRestarts
                && (st.queueLength > 0 ==> st.activePages == st.maxConcurrency)
                && (st.browserRestarts > 0 ==> !st.browserConnected)
    {
      ServiceStatus(|queue|, activePages, MaxConcurrency, Connected(), browserRestarts)
    }

    /**
     * `cleanup()`: drops the browser (a failing close is only logged), rejects every
     * waiting job with "Service is shutting down" and empties the queue. Jobs in
     * flight are left to finish.
     */
    method Cleanup()
      requires Valid()
      modifies this`browser, this`queue, this`settled
      ensures Valid()
      ensures browser == None && queue == []
      ensures forall t :: t in settled <==> t in old(settled) || old(Taken()) <= t < nextTicket
      ensures forall t :: t in old(settled) ==> settled[t] == old(settled)[t]
      ensures forall i :: 0 <= i < old(|queue|) ==>
                settled[old(queue)[i].ticket] == Rejected("Service is shutting down")
    {
      browser := None;
      var s, first := settled, Taken();
      var i := 0;
      while i < |queue|
        modifies {}
        invariant 0 <= i <= |queue|
        invariant forall t :: t in s <==> t in settled || first <= t < first + i
        invariant forall t :: t in settled ==> s[t] == settled[t]
        invariant forall j :: 0 <= j < i ==> s[queue[j].ticket] == Rejected("Service is shutting down")
      {
        s := s[queue[i].ticket := Rejected("Service is shutting down")];
        i := i + 1;
      }
      CancelAllKeepsTickets(queue, activePages, inFlight, settled, nextTicket, s);
      settled, queue := s, [];
    }
  }

  /** Five jobs on a fresh service: three run at once and two wait, in the order they came. */
  method FiveJobs() returns (st: ServiceStatus, waiting: seq<nat>)
    ensures st.queueLength == 2 && st.activePages == 3 && !st.browserConnected
    ensures waiting == [3, 4]
  {
    var s := new OptimizedScreenshotService();
    var t0 := s.TakeScreenshot("https://example.com/a", "out/a.png");
    var t1 := s.TakeScreenshot("https://example.com/b", "out/b.png");
    var t2 := s.TakeScreenshot("https://example.com/c", "out/c.png");
    assert s.activePages == 3 && |s.queue| == 0;
    var t3 := s.TakeScreenshot("https://example.com/d", "out/d.png");
    var t4 := s.TakeScreenshot("https://example.com/e", "out/e.png");
    assert s.queue[0].ticket == 3 && s.queue[1].ticket == 4;
    st := s.GetStatus();
    waiting := [s.queue[0].ticket, s.queue[1].ticket];
  }
}
