/** The critical sections of API callers: starting, stopping, ad-hoc reservations, settings, shutdown, observers. */
module JobApi {
  import opened Text
  import opened Streams
  import opened JobState
  import opened JobSteps
  import opened JobRegistry

  // ---------------------------------------------------------------- stopping

  // Calling a cancel function: the context of the goroutine it belongs to is done from now on. For a run that is
  // stopped, the history records that it was given up.
  function CancelContext(ws: seq<Worker>, cancel: Option<nat>): seq<Worker> {
    if cancel.Some? && cancel.value < |ws| then ws[cancel.value := ws[cancel.value].(cancelled := true)] else ws
  }

  function AbandonRun(ws: seq<Worker>, cancel: Option<nat>): seq<Worker> {
    if cancel.Some? && cancel.value < |ws|
    then ws[cancel.value := ws[cancel.value].(cancelled := true, verdict := Abandoned)] else ws
  }

  predicate QueueActive(c: Cell) {
    c.job.state == Running || c.job.workers != 0
  }

  predicate KeepaliveActive(c: Cell) {
    c.keepalive.state != Off || c.keepalive.workers != 0
  }

  function JobStopped(job: Job, now: int): Job {
    var j := job.(runID := job.runID + 1, cancel := None);
    if j.state != Running then j
    else j.(state := Stopped, finishedAt := Some(now), nextAttempt := None, subscribers := map[])
  }

  function QueueStopped(c: Cell, now: int): Cell {
    c.(arbiter := Signal(c.arbiter), job := JobStopped(c.job, now))
  }

  function KeepaliveJobStopped(keepalive: KeepaliveJob, now: int): KeepaliveJob {
    var p := keepalive.(runID := keepalive.runID + 1, cancel := None);
    if p.state == Off then p else p.(state := Off, stoppedAt := Some(now), nextRequest := None)
  }

  function KeepaliveStopped(c: Cell, now: int): Cell {
    c.(arbiter := Signal(c.arbiter), keepalive := KeepaliveJobStopped(c.keepalive, now))
  }

  // stopQueueLocked
  function StopQueue(s: State, k: Key): (r: State)
    requires Formed(s)
    ensures Formed(r) && r.cells.Keys == s.cells.Keys && r.order == s.order
  {
    if k !in s.cells || !QueueActive(s.cells[k]) then s
    else s.(
      cells := s.cells[k := QueueStopped(s.cells[k], s.env.now)],
      workers := AbandonRun(s.workers, s.cells[k].job.cancel))
  }

  // stopKeepaliveLocked
  function StopKeepalive(s: State, k: Key): (r: State)
    requires Formed(s)
    ensures Formed(r) && r.cells.Keys == s.cells.Keys && r.order == s.order
  {
    if k !in s.cells || !KeepaliveActive(s.cells[k]) then s
    else s.(
      cells := s.cells[k := KeepaliveStopped(s.cells[k], s.env.now)],
      workers := AbandonRun(s.workers, s.cells[k].keepalive.cancel))
  }

  // stopAdhocLocked
  function StopAdhoc(s: State, k: Key): (r: State)
    requires Formed(s)
    ensures Formed(r) && r.cells.Keys == s.cells.Keys && r.order == s.order
  {
    if k !in s.cells || s.cells[k].arbiter.owner != Adhoc then s
    else s.(
      cells := s.cells[k := s.cells[k].(arbiter := s.cells[k].arbiter.(cancel := None))],
      workers := CancelContext(s.workers, s.cells[k].arbiter.cancel))
  }

  function StopTarget(s: State, k: Key): (r: State)
    requires Formed(s)
    ensures Formed(r) && r.cells.Keys == s.cells.Keys && r.order == s.order
  {
    StopAdhoc(StopKeepalive(StopQueue(s, k), k), k)
  }

  function StopAll(s: State, keys: seq<Key>): (r: State)
    requires Formed(s)
    ensures Formed(r) && r.cells.Keys == s.cells.Keys && r.order == s.order
  {
    if keys == [] then s else StopTarget(StopAll(s, keys[..|keys| - 1]), keys[|keys| - 1])
  }

  // What stop counts as something to stop.
  predicate Stoppable(c: Cell) {
    QueueActive(c) || KeepaliveActive(c) || c.arbiter.owner == Adhoc
  }

  predicate AnyStoppable(s: State, keys: seq<Key>) {
    exists k <- keys :: k in s.cells && Stoppable(s.cells[k])
  }

  // stop, on resolved keys
  function Stop(s: State, keys: seq<Key>): (r: State)
    requires Formed(s)
    ensures Formed(r)
  {
    BroadcastIf(AnyStoppable(s, keys), StopAll(s, keys))
  }

  // The first section of UpdateTarget and DeleteTarget.
  function StopByID(s: State, id: int): (r: State)
    requires Formed(s)
    ensures Formed(r)
  {
    var k := KeyOf(s.cells, s.order, id);
    if k.Some? && Busy(s.cells[k.value]) then Broadcast(StopTarget(s, k.value)) else s
  }

  predicate AsksForAll(names: seq<string>) {
    names == [] || exists name <- names :: Normalize(name) in {"all", "全部", "*"}
  }

  function ResolveEach(cells: map<Key, Cell>, names: seq<string>, seen: set<Key>): (seq<Key>, seq<string>) {
    if names == [] then ([], [])
    else
      var k := Normalize(names[0]);
      if k == "" || k in seen then ResolveEach(cells, names[1..], seen)
      else
        var (keys, unknown) := ResolveEach(cells, names[1..], seen + {k});
        if k in cells then ([k] + keys, unknown) else (keys, [names[0]] + unknown)
  }

  // resolveLocked: the keys of the named targets, without repetitions, and the names nobody answers to
  function Resolve(cells: map<Key, Cell>, order: seq<Key>, names: seq<string>): (seq<Key>, seq<string>) {
    if AsksForAll(names) then (order, [])
    else ResolveEach(cells, names, {})
  }

  // ---------------------------------------------------------------- starting runs

  function SubscriberKey(sub: Subscriber): string {
    if TrimSpace(sub.key) == "" then sub.recipient else TrimSpace(sub.key)
  }

  function WithSubscriber(subs: Subscribers, sub: Subscriber): Subscribers {
    if sub.recipient == "" then subs else subs[SubscriberKey(sub) := sub]
  }

  // addSubscriberLocked on a running job; the run's history gets the subscriber too.
  function AddSubscriber(s: State, k: Key, sub: Subscriber): (r: State)
    requires Formed(s) && k in s.cells
    ensures Formed(r)
  {
    var c := s.cells[k];
    var n := c.job.cancel;
    s.(
      cells := s.cells[k := c.(job := c.job.(subscribers := WithSubscriber(c.job.subscribers, sub)))],
      workers := if n.None? || n.value >= |s.workers| then s.workers else
        s.workers[n.value := s.workers[n.value].(registered := WithSubscriber(s.workers[n.value].registered, sub))])
  }

  // startQueue when prepareMode refused: at most a subscription to the run already there.
  function JoinQueue(s: State, k: Key, sub: Subscriber): (r: State)
    requires Formed(s)
    ensures Formed(r)
  {
    if k in s.cells && s.cells[k].job.state == Running then AddSubscriber(s, k, sub) else s
  }

  datatype StartOutcome = Missing | Already | Retry | Started

  function StartQueueOutcome(s: State, k: Key): StartOutcome {
    if k !in s.cells then Missing
    else if s.env.shuttingDown || s.cells[k].job.state == Running then Already
    else if s.cells[k].keepalive.state != Off || s.cells[k].keepalive.workers > 0 then Retry
    else Started
  }

  // A goroutine is started: it is the next in `workers`, and runWG counts it.
  function Spawn(s: State, k: Key, c: Cell, w: Worker): (r: State)
    requires Formed(s) && k in s.cells
    ensures Formed(r)
  {
    s.(cells := s.cells[k := c], workers := s.workers + [w], pool := s.pool.(running := s.pool.running + 1))
  }

  function QueueStarted(c: Cell, n: nat, now: int, sub: Subscriber): Cell {
    c.(arbiter := Signal(c.arbiter), job := c.job.(
      runID := c.job.runID + 1, cancel := Some(n), state := Running, attempts := 0, startedAt := Some(now),
      lastAttempt := None, nextAttempt := None, finishedAt := None, lastError := "",
      subscribers := WithSubscriber(c.job.subscribers, sub), workers := c.job.workers + 1))
  }

  // startQueue after prepareMode: the section that re-checks the target and starts the run
  function StartQueue(s: State, k: Key, sub: Subscriber): (r: State)
    requires Formed(s)
    ensures Formed(r)
  {
    match StartQueueOutcome(s, k)
    case Already => if s.env.shuttingDown then s else AddSubscriber(s, k, sub)
    case Started =>
      var c := QueueStarted(s.cells[k], |s.workers|, s.env.now, sub);
      Broadcast(Spawn(s, k, c, NewWorker(Queue, k, c.job.runID, Claim, c.job.subscribers)))
    case _ => s
  }

  function StartKeepaliveOutcome(s: State, k: Key): StartOutcome {
    if k !in s.cells then Missing
    else if s.env.shuttingDown || s.cells[k].keepalive.state != Off then Already
    else if s.cells[k].job.state == Running || s.cells[k].job.workers > 0 then Retry
    else Started
  }

  function KeepaliveStarted(c: Cell, n: nat, now: int): Cell {
    c.(arbiter := Signal(c.arbiter), keepalive := c.keepalive.(
      runID := c.keepalive.runID + 1, cancel := Some(n), state := Requesting, requests := 0, startedAt := Some(now),
      lastRequest := None, lastSuccess := None, lastFailure := None, nextRequest := None, stoppedAt := None,
      lastError := "", workers := c.keepalive.workers + 1))
  }

  // startKeepalive after prepareMode
  function StartKeepalive(s: State, k: Key): (r: State)
    requires Formed(s)
    ensures Formed(r)
  {
    if StartKeepaliveOutcome(s, k) != Started then s
    else
      var c := KeepaliveStarted(s.cells[k], |s.workers|, s.env.now);
      Broadcast(Spawn(s, k, c, NewWorker(Keepalive, k, c.keepalive.runID, Claim, map[])))
  }

  datatype Prepared = Refused | Waiting | Ready

  predicate PrepareRefused(s: State, k: Key, desired: Owner) {
    || k !in s.cells || s.env.shuttingDown
    || (desired == Queue && s.cells[k].job.state == Running)
    || (desired == Keepalive && s.cells[k].keepalive.state != Off)
  }

  // One round of prepareMode's loop. Waiting: the caller polls until the target is idle and tries again.
  function PrepareMode(s: State, k: Key, desired: Owner): (r: (State, Prepared))
    requires Formed(s)
    ensures Formed(r.0)
  {
    if PrepareRefused(s, k, desired) then (s, Refused)
    else
      var c := s.cells[k];
      var s1 := StopAdhoc(s, k);
      var s2 := if desired == Queue then StopKeepalive(s1, k) else s1;
      var s3 := if desired == Keepalive then StopQueue(s2, k) else s2;
      var changed :=
        || c.arbiter.owner == Adhoc || (desired == Queue && KeepaliveActive(c))
        || (desired == Keepalive && QueueActive(c));
      (BroadcastIf(changed, s3), if Busy(s3.cells[k]) then Waiting else Ready)
  }

  // ---------------------------------------------------------------- ad-hoc requests

  datatype AdhocOutcome = NotFound | ShuttingDown | TargetBusy | Reserved

  function ReserveOutcome(s: State, id: int): AdhocOutcome
    requires Formed(s)
  {
    var k := KeyOf(s.cells, s.order, id);
    if k.None? then NotFound
    else if s.env.shuttingDown || s.env.rootDone then ShuttingDown
    else if Busy(s.cells[k.value]) then TargetBusy
    else Reserved
  }

  function AdhocReserved(c: Cell, n: nat, runID: nat): Cell {
    c.(arbiter := c.arbiter.(owner := Adhoc, ownerRunID := runID, cancel := Some(n)), holder := n)
  }

  // RunAdhoc up to acquire
  function ReserveAdhoc(s: State, id: int): (r: State)
    requires Formed(s)
    ensures Formed(r)
  {
    if ReserveOutcome(s, id) != Reserved then s
    else
      var k := KeyOf(s.cells, s.order, id).value;
      var run := s.env.nextAdhocRunID + 1;
      var s1 := s.(env := s.env.(nextAdhocRunID := run));
      Broadcast(Spawn(s1, k, AdhocReserved(s.cells[k], |s.workers|, run), NewWorker(Adhoc, k, run, Slot, map[])))
  }

  // The HTTP request behind an ad-hoc run goes away.
  function DropRequest(s: State, i: nat): State
    requires i < |s.workers|
  {
    s.(workers := CancelContext(s.workers, Some(i)))
  }

  // ---------------------------------------------------------------- settings, shutdown, time

  predicate Resampled(c: Cell) {
    c.keepalive.state == WaitingNext && c.keepalive.nextRequest != None
  }

  ghost predicate AreSamples(cells: map<Key, Cell>, samples: map<Key, int>, minimum: int, maximum: int) {
    forall k <- cells :: Resampled(cells[k]) ==> k in samples && IsSample(samples[k], minimum, maximum)
  }

  function Rescheduled(c: Cell, now: int, samples: map<Key, int>, k: Key): Cell
    requires Resampled(c) ==> k in samples
  {
    if !Resampled(c) then c
    else c.(sampled := now, keepalive := c.keepalive.(
      nextRequest := Some(now + samples[k]), schedule := c.keepalive.schedule + 1))
  }

  // New bounds resample every waiting keepalive from this instant.
  function CellsAfter(s: State, minimum: int, maximum: int, samples: map<Key, int>): (r: map<Key, Cell>)
    requires AreSamples(s.cells, samples, minimum, maximum)
    ensures r.Keys == s.cells.Keys
  {
    if minimum == s.env.keepaliveMin && maximum == s.env.keepaliveMax then s.cells
    else map k | k in s.cells :: Rescheduled(s.cells[k], s.env.now, samples, k)
  }

  predicate Resizes(env: Env, parallel: int) {
    parallel > 0 && parallel != env.maxParallel
  }

  function EnvAfter(env: Env, minimum: int, maximum: int, parallel: int, message: string): Env {
    env.(
      keepaliveMin := minimum, keepaliveMax := maximum,
      maxParallel := if Resizes(env, parallel) then parallel else env.maxParallel, successMessage := message)
  }

  function PoolAfter(pool: Pool, env: Env, parallel: int): Pool {
    if Resizes(env, parallel) then pool.(changed := pool.changed + 1) else pool
  }

  // UpdateSettings; `samples` are the values randomDuration returns
  function UpdateSettings(
    s: State, minimum: int, maximum: int, parallel: int, message: string, samples: map<Key, int>): (r: State)
    requires Formed(s) && AreSamples(s.cells, samples, minimum, maximum)
    ensures Formed(r)
  {
    Broadcast(s.(
      cells := CellsAfter(s, minimum, maximum, samples),
      pool := PoolAfter(s.pool, s.env, parallel),
      env := EnvAfter(s.env, minimum, maximum, parallel, message)))
  }

  // The contexts BeginShutdown cancels.
  predicate ToCancel(cells: map<Key, Cell>, i: nat) {
    exists k <- cells ::
      || cells[k].job.cancel == Some(i) || cells[k].keepalive.cancel == Some(i)
      || (cells[k].arbiter.owner == Adhoc && cells[k].arbiter.cancel == Some(i))
  }

  function BeginShutdown(s: State): (r: State)
    requires Formed(s)
    ensures Formed(r)
  {
    if s.env.shuttingDown then s
    else s.(
      env := s.env.(shuttingDown := true),
      workers := seq(|s.workers|, i requires 0 <= i < |s.workers| =>
        if ToCancel(s.cells, i) then s.workers[i].(cancelled := true) else s.workers[i]))
  }

  // ---------------------------------------------------------------- observers

  // Observe
  function Observe(s: State, buffer: int): (r: State)
    requires Formed(s)
    ensures Formed(r)
  {
    var capacity := if buffer <= 0 then 32 else buffer;
    var stream := Stream(capacity, |s.feed.log|, Event(|s.feed.log|, Snapshot(s)), [], 0, true);
    s.(feed := s.feed.(streams := s.feed.streams + [stream]))
  }

  // The subscription's Close
  function Unsubscribe(s: State, id: nat): (r: State)
    requires Formed(s) && id < |s.feed.streams|
    ensures Formed(r)
  {
    s.(feed := s.feed.(streams := s.feed.streams[id := s.feed.streams[id].(open := false)]))
  }

  // The subscriber takes one event off its channel.
  function Receive(s: State, id: nat): (r: State)
    requires Formed(s) && id < |s.feed.streams| && s.feed.streams[id].received < |s.feed.streams[id].sent|
    ensures Formed(r)
  {
    var st := s.feed.streams[id];
    s.(feed := s.feed.(streams := s.feed.streams[id := st.(received := st.received + 1)]))
  }
}
