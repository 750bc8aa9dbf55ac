/**
 The job manager's state: its own fields, the goroutines working for it, and what its observers have been sent.

 A goroutine is a value in `workers`; its index is its identity for ever. Its program counter says which critical
 section it runs next. A `close and replace` channel is a generation counter: a goroutine that captured generation
 g is woken once the counter has passed g. A cancel function is the index of the goroutine whose context it cancels.
 */
module JobState {
  import opened Text
  import opened Targets
  import opened Streams

  type Key = string
  type Instant = Option<int>  // None is Go's zero time

  datatype QueueState = Idle | Running | Succeeded | Stopped
  datatype KeepaliveState = Requesting | WaitingQueue | WaitingNext | Off
  datatype Owner = Nobody | Queue | Keepalive | Adhoc

  datatype Subscriber = Subscriber(recipient: string, traceID: string, key: string, messenger: Option<nat>)
  type Subscribers = map<string, Subscriber>

  datatype Job = Job(
    state: QueueState,
    attempts: nat,
    startedAt: Instant,
    lastAttempt: Instant,
    nextAttempt: Instant,
    finishedAt: Instant,
    lastError: string,
    runID: nat,
    cancel: Option<nat>,
    subscribers: Subscribers,
    workers: int)

  datatype KeepaliveJob = KeepaliveJob(
    state: KeepaliveState,
    requests: nat,
    startedAt: Instant,
    lastRequest: Instant,
    lastSuccess: Instant,
    lastFailure: Instant,
    nextRequest: Instant,
    stoppedAt: Instant,
    lastError: string,
    runID: nat,
    cancel: Option<nat>,
    schedule: nat,
    workers: int)

  datatype Arbiter = Arbiter(owner: Owner, ownerRunID: nat, cancel: Option<nat>, changed: nat)

  const NEW_JOB := Job(Idle, 0, None, None, None, None, "", 0, None, map[], 0)
  const NEW_KEEPALIVE := KeepaliveJob(Off, 0, None, None, None, None, None, None, "", 0, None, 0, 0)
  const NEW_ARBITER := Arbiter(Nobody, 0, None, 0)

  // ---------------------------------------------------------------- goroutines

  datatype Result = Result(success: bool, error: string)

  datatype PC =
    | Claim                         // acquireQueueTarget, or the first half of beginKeepaliveRequest
    | ClaimWait(target: nat)        // waiting on the arbiter's channel
    | Slot                          // acquire
    | SlotWait(parallel: nat)       // waiting on the pool's channel
    | Begin                         // holds a slot: beginAttempt, second half of beginKeepaliveRequest, RunAdhoc
    | DropSlot                      // about to hand the slot back: releaseSlot
    | DropSlotWait(target: nat)     // the same, then waits on the arbiter's channel
    | DropTarget                    // releaseTarget
    | InRunner                      // inside runner.Run or RunPrompt
    | Finish(result: Result)        // finishProcess
    | Returned(result: Result)      // markSuccess, or the ctx.Err() check
    | Mark(result: Result)          // markFailure or finishKeepaliveRequest
    | Cancel                        // markQueueCancelled or markKeepaliveCancelled
    | Sleep                         // waitKeepaliveNext
    | SleepWait(at: int, schedule: nat)
    | Exit(slot: bool, process: bool)  // the deferred finish call; the flags are RunAdhoc's locals
    | Done

  // What became of a run: still the current one, succeeded, or stopped and cancelled.
  datatype Verdict = Open | Delivered | Abandoned

  // `calls`, `results`, `registered`, `handed` and `verdict` are history: the attempt numbers the runner was given,
  // what it returned, every subscriber added to the run (latest value per key), the hand-offs to notification, and the
  // run's end.
  datatype Worker = Worker(
    kind: Owner,
    key: Key,
    runID: nat,
    cancelled: bool,
    pc: PC,
    calls: seq<nat>,
    results: seq<Result>,
    registered: Subscribers,
    handed: seq<Subscribers>,
    verdict: Verdict)

  function NewWorker(kind: Owner, key: Key, runID: nat, pc: PC, registered: Subscribers): Worker {
    Worker(kind, key, runID, false, pc, [], [], registered, [], Open)
  }

  // The runner has returned, but what it returned is not recorded yet.
  predicate Pending(w: Worker) {
    w.pc.Finish? || w.pc.Returned? || w.pc.Mark?
  }

  // The results the target's record is about.
  function Recorded(w: Worker): seq<Result> {
    if Pending(w) && w.results != [] then w.results[..|w.results| - 1] else w.results
  }

  // The error of the last failure among them.
  function LastError(results: seq<Result>): string {
    if results == [] then ""
    else if results[|results| - 1].success then LastError(results[..|results| - 1])
    else results[|results| - 1].error
  }

  predicate HoldsSlot(w: Worker) {
    w.pc.Begin? || w.pc.DropSlot? || w.pc.DropSlotWait? || w.pc.InRunner? || w.pc.Finish? || (w.pc.Exit? && w.pc.slot)
  }

  predicate InProcess(w: Worker) {
    w.pc.InRunner? || w.pc.Finish? || (w.pc.Exit? && w.pc.process)
  }

  predicate InCall(w: Worker) {
    w.pc.InRunner? || w.pc.Finish? || w.pc.Returned? || w.pc.Mark?
  }

  // The goroutines that own their target's arbiter for sure (one about to mark its run cancelled may own it too).
  predicate HoldsTarget(w: Worker) {
    match w.kind
    case Queue => w.pc.Slot? || w.pc.SlotWait? || w.pc.Begin? || w.pc.DropSlot? || w.pc.DropTarget? || InCall(w)
    case Keepalive => InCall(w)
    case Adhoc => !w.pc.Done?
    case Nobody => false
  }

  // ---------------------------------------------------------------- what clients see

  datatype TargetSnapshot = TargetSnapshot(
    id: int,
    sortOrder: int,
    name: string,
    model: string,
    apiHost: string,
    busy: bool,
    adhocRunning: bool,
    state: QueueState,
    attempts: nat,
    startedAt: Instant,
    lastAttempt: Instant,
    nextAttempt: Instant,
    finishedAt: Instant,
    lastError: string,
    keepaliveState: KeepaliveState,
    requests: nat,
    keepaliveStartedAt: Instant,
    lastRequest: Instant,
    lastSuccess: Instant,
    lastFailure: Instant,
    nextRequest: Instant,
    stoppedAt: Instant,
    keepaliveError: string)

  datatype ManagerSnapshot = ManagerSnapshot(targets: seq<TargetSnapshot>, currentProcesses: int, maxParallel: int)

  datatype Event = Event(id: nat, snapshot: ManagerSnapshot)

  // ---------------------------------------------------------------- the state

  // One target's entries in the manager's maps. `holder` and `sampled` are history: the goroutine that last took the
  // arbiter, and when the next keepalive request was last sampled.
  datatype Cell = Cell(
    target: Target,
    job: Job,
    keepalive: KeepaliveJob,
    arbiter: Arbiter,
    holder: nat,
    sampled: int)

  function NewCell(target: Target): Cell {
    Cell(target, NEW_JOB, NEW_KEEPALIVE, NEW_ARBITER, 0, 0)
  }

  // slotsInUse, currentProcesses, parallelChanged, runWG
  datatype Pool = Pool(slots: int, processes: int, changed: nat, running: int)

  // The settings and the outside world; `rootDone`: the root context is cancelled.
  datatype Env = Env(
    maxParallel: int,
    keepaliveMin: int,
    keepaliveMax: int,
    nextAdhocRunID: nat,
    shuttingDown: bool,
    now: int,
    rootDone: bool,
    successMessage: string)

  // The observers, and as history every event published; nextEventID is |log|.
  datatype Feed = Feed(streams: seq<Stream<Event>>, log: seq<Event>)

  datatype State = State(
    cells: map<Key, Cell>,
    order: seq<Key>,
    workers: seq<Worker>,
    pool: Pool,
    env: Env,
    feed: Feed)

  predicate Listed(cells: map<Key, Cell>, order: seq<Key>) {
    forall k <- order :: k in cells
  }

  ghost predicate Formed(s: State) {
    Listed(s.cells, s.order) && WellFormed(s.feed.streams)
  }

  // A goroutine that has not returned yet, working for a target the manager has.
  predicate Live(s: State, i: nat) {
    i < |s.workers| && !s.workers[i].pc.Done? && s.workers[i].key in s.cells
  }

  predicate CtxDone(w: Worker, env: Env) {
    w.cancelled || env.rootDone
  }

  predicate QueueCurrent(j: Job, w: Worker) {
    j.runID == w.runID && j.state == Running
  }

  predicate KeepaliveCurrent(j: KeepaliveJob, w: Worker) {
    j.runID == w.runID && j.state != Off
  }

  // targetBusyLocked
  predicate Busy(c: Cell) {
    || c.job.state == Running || c.job.workers > 0
    || c.keepalive.state != Off || c.keepalive.workers > 0
    || c.arbiter.owner != Nobody
  }

  function View(c: Cell): TargetSnapshot {
    var t, q, p := c.target, c.job, c.keepalive;
    TargetSnapshot(
      t.id, t.sortOrder, t.name, t.model, API_HOST(t.baseURL), Busy(c), c.arbiter.owner == Adhoc,
      q.state, q.attempts, q.startedAt, q.lastAttempt, q.nextAttempt, q.finishedAt, q.lastError,
      p.state, p.requests, p.startedAt, p.lastRequest, p.lastSuccess, p.lastFailure, p.nextRequest, p.stoppedAt,
      p.lastError)
  }

  // Which field of a snapshot stands for what.
  predicate ShowsTarget(v: TargetSnapshot, t: Target) {
    && v.id == t.id && v.sortOrder == t.sortOrder && v.name == t.name && v.model == t.model
    && v.apiHost == API_HOST(t.baseURL)
  }

  predicate ShowsJob(v: TargetSnapshot, j: Job) {
    && v.state == j.state && v.attempts == j.attempts && v.startedAt == j.startedAt && v.lastAttempt == j.lastAttempt
    && v.nextAttempt == j.nextAttempt && v.finishedAt == j.finishedAt && v.lastError == j.lastError
  }

  predicate ShowsKeepalive(v: TargetSnapshot, p: KeepaliveJob) {
    && v.keepaliveState == p.state && v.requests == p.requests && v.keepaliveStartedAt == p.startedAt
    && v.lastRequest == p.lastRequest && v.lastSuccess == p.lastSuccess && v.lastFailure == p.lastFailure
    && v.nextRequest == p.nextRequest && v.stoppedAt == p.stoppedAt && v.keepaliveError == p.lastError
  }

  // snapshotLocked
  function Snapshot(s: State): ManagerSnapshot
    requires Listed(s.cells, s.order)
  {
    ManagerSnapshot(
      seq(|s.order|, n requires 0 <= n < |s.order| => View(s.cells[s.order[n]])), s.pool.processes, s.env.maxParallel)
  }

  // ---------------------------------------------------------------- sums over the goroutines

  datatype Metric = Slots | Processes | Goroutines | WorkersOf(kind: Owner, key: Key)

  function Weight(m: Metric, w: Worker): nat {
    match m
    case Slots => if HoldsSlot(w) then 1 else 0
    case Processes => if InProcess(w) then 1 else 0
    case Goroutines => if w.pc.Done? then 0 else 1
    case WorkersOf(kind, key) => if w.kind == kind && w.key == key && !w.pc.Done? then 1 else 0
  }

  function Sum(ws: seq<Worker>, m: Metric): nat {
    if ws == [] then 0 else Sum(ws[..|ws| - 1], m) + Weight(m, ws[|ws| - 1])
  }

  lemma SumAppend(ws: seq<Worker>, w: Worker, m: Metric)
    ensures Sum(ws + [w], m) == Sum(ws, m) + Weight(m, w)
  {
    assert (ws + [w])[..|ws|] == ws;
  }

  lemma {:induction false} SumUpdate(ws: seq<Worker>, i: nat, w: Worker, m: Metric)
    requires i < |ws|
    ensures Sum(ws[i := w], m) + Weight(m, ws[i]) == Sum(ws, m) + Weight(m, w)
  {
    var last := |ws| - 1;
    if i == last {
      assert ws[i := w][..last] == ws[..last];
    } else {
      assert ws[i := w][..last] == ws[..last][i := w];
      SumUpdate(ws[..last], i, w, m);
    }
  }

  lemma {:induction false} SumAtLeast(ws: seq<Worker>, i: nat, m: Metric)
    requires i < |ws|
    ensures Weight(m, ws[i]) <= Sum(ws, m)
  {
    if i < |ws| - 1 { SumAtLeast(ws[..|ws| - 1], i, m); }
  }

  lemma {:induction false} SumWitness(ws: seq<Worker>, m: Metric) returns (i: nat)
    requires Sum(ws, m) > 0
    ensures i < |ws| && Weight(m, ws[i]) > 0
  {
    var last := |ws| - 1;
    if Weight(m, ws[last]) > 0 { i := last; } else { i := SumWitness(ws[..last], m); }
  }

  lemma {:induction false} SumSame(ws: seq<Worker>, ws': seq<Worker>, m: Metric)
    requires |ws| == |ws'|
    requires forall i :: 0 <= i < |ws| ==> Weight(m, ws[i]) == Weight(m, ws'[i])
    ensures Sum(ws, m) == Sum(ws', m)
  {
    if ws != [] { SumSame(ws[..|ws| - 1], ws'[..|ws| - 1], m); }
  }
}
