/**
 The critical sections the manager's goroutines run. Such a section works on the goroutine's own target and on the
 slot pool, so each is a function of those: target `c`, goroutine `w` (number `i`), pool and settings before it,
 and an `Effect` after it.
 */
module JobSteps {
  import opened Text
  import opened Streams
  import opened JobState

  // `loud`: the section ends by broadcasting the new state.
  datatype Effect = Effect(cell: Cell, worker: Worker, pool: Pool, loud: bool)

  // broadcastStateLocked
  function Broadcast(s: State): (r: State)
    requires Formed(s)
    ensures Formed(r)
  {
    var event := Event(|s.feed.log| + 1, Snapshot(s));
    s.(feed := Feed(Publish(s.feed.streams, event), s.feed.log + [event]))
  }

  function BroadcastIf(loud: bool, s: State): (r: State)
    requires Formed(s)
    ensures Formed(r)
  {
    if loud then Broadcast(s) else s
  }

  // The section's effect on the whole state.
  function Commit(s: State, i: nat, e: Effect): (r: State)
    requires Formed(s) && i < |s.workers|
    ensures Formed(r)
  {
    BroadcastIf(e.loud, s.(
      cells := s.cells[s.workers[i].key := e.cell], workers := s.workers[i := e.worker], pool := e.pool))
  }

  // ---------------------------------------------------------------- building blocks

  // signalTargetLocked
  function Signal(a: Arbiter): Arbiter {
    a.(changed := a.changed + 1)
  }

  // releaseTargetLocked
  function Release(a: Arbiter, owner: Owner, runID: nat): Arbiter {
    if a.owner != owner || a.ownerRunID != runID then a else Arbiter(Nobody, 0, None, a.changed + 1)
  }

  function ReleaseFor(c: Cell, w: Worker): Cell {
    c.(arbiter := Release(c.arbiter, w.kind, w.runID))
  }

  // The arbiter's owner fields are written by the goroutine that takes the target.
  function Take(c: Cell, w: Worker, i: nat): Cell {
    c.(arbiter := c.arbiter.(owner := w.kind, ownerRunID := w.runID), holder := i)
  }

  function DecrementIfPositive(n: int): int {
    if n > 0 then n - 1 else n
  }

  function Quiet(c: Cell, w: Worker, pc: PC, pool: Pool): Effect {
    Effect(c, w.(pc := pc), pool, false)
  }

  // ---------------------------------------------------------------- sections of every goroutine

  // acquire, one round of its loop
  function AcquireSlot(c: Cell, w: Worker, pool: Pool, env: Env): Effect {
    if pool.slots < env.maxParallel then Quiet(c, w, Begin, pool.(slots := pool.slots + 1))
    else Quiet(c, w, SlotWait(pool.changed), pool)
  }

  // releaseSlot
  function ReleaseSlot(c: Cell, w: Worker, pool: Pool): Effect {
    var next := match w.pc
      case DropSlotWait(g) => ClaimWait(g)
      case _ => if w.kind == Queue then DropTarget else Cancel;
    Quiet(c, w, next, pool.(slots := DecrementIfPositive(pool.slots), changed := pool.changed + 1))
  }

  // The runner call returns. RunAdhoc goes straight to its deferred cleanup.
  function RunnerReturns(c: Cell, w: Worker, pool: Pool, result: Result): Effect {
    Quiet(c, w.(results := w.results + [result]), if w.kind == Adhoc then Exit(true, true) else Finish(result), pool)
  }

  // finishProcess
  function FinishProcess(c: Cell, w: Worker, pool: Pool): Effect
    requires w.pc.Finish?
  {
    Effect(c, w.(pc := Returned(w.pc.result)), pool.(
      processes := DecrementIfPositive(pool.processes), slots := DecrementIfPositive(pool.slots),
      changed := pool.changed + 1), true)
  }

  // The ctx.Err() test between finishProcess and the next critical section.
  function CheckContext(c: Cell, w: Worker, pool: Pool, env: Env): Effect
    requires w.pc.Returned?
  {
    Quiet(c, w, if CtxDone(w, env) then Cancel else Mark(w.pc.result), pool)
  }

  // ---------------------------------------------------------------- queue runs

  // acquireQueueTarget, one round of its loop
  function ClaimQueue(c: Cell, w: Worker, i: nat, pool: Pool): Effect {
    if !QueueCurrent(c.job, w) then Quiet(c, w, Cancel, pool)
    else if c.arbiter.owner == Nobody then Quiet(Take(c, w, i), w, Slot, pool)
    else Quiet(c, w, ClaimWait(c.arbiter.changed), pool)
  }

  // beginAttempt
  function BeginAttempt(c: Cell, w: Worker, pool: Pool, env: Env): Effect {
    var j := c.job;
    if !QueueCurrent(j, w) || c.arbiter.owner != Queue || c.arbiter.ownerRunID != w.runID
    then Quiet(c, w, DropSlot, pool)
    else Effect(
      c.(job := j.(attempts := j.attempts + 1, lastAttempt := Some(env.now), nextAttempt := None)),
      w.(pc := InRunner, calls := w.calls + [j.attempts + 1]),
      pool.(processes := pool.processes + 1), true)
  }

  // releaseTarget after a failed beginAttempt
  function AbandonTarget(c: Cell, w: Worker, pool: Pool): Effect {
    Quiet(ReleaseFor(c, w), w, Exit(false, false), pool)
  }

  // markSuccess. Its subscribers go to notifySuccess; the cancel function it calls is the run's own.
  function MarkSuccess(c: Cell, w: Worker, pool: Pool, env: Env): Effect {
    var j := c.job;
    if !QueueCurrent(j, w) then Quiet(ReleaseFor(c, w), w, Exit(false, false), pool)
    else Effect(
      ReleaseFor(c, w).(job := j.(
        state := Succeeded, finishedAt := Some(env.now), nextAttempt := None, lastError := "", cancel := None,
        subscribers := map[])),
      w.(pc := Exit(false, false), cancelled := true, handed := w.handed + [j.subscribers], verdict := Delivered),
      pool, true)
  }

  // markFailure
  function MarkFailure(c: Cell, w: Worker, pool: Pool): Effect
    requires w.pc.Mark?
  {
    if !QueueCurrent(c.job, w) then Quiet(ReleaseFor(c, w), w, Exit(false, false), pool)
    else Effect(
      ReleaseFor(c, w).(job := c.job.(lastError := w.pc.result.error, nextAttempt := None)),
      w.(pc := Claim), pool, true)
  }

  // markQueueCancelled
  function MarkQueueCancelled(c: Cell, w: Worker, pool: Pool, env: Env): Effect {
    var c1 := ReleaseFor(c, w);
    if !QueueCurrent(c.job, w) then Quiet(c1, w, Exit(false, false), pool)
    else Effect(
      c1.(arbiter := Signal(c1.arbiter), job := c.job.(
        state := Stopped, finishedAt := Some(env.now), nextAttempt := None, cancel := None, subscribers := map[])),
      w.(pc := Exit(false, false), verdict := Abandoned), pool, true)
  }

  // ---------------------------------------------------------------- keepalive runs

  predicate KeepaliveBlocked(c: Cell) {
    c.job.state == Running || c.arbiter.owner != Nobody
  }

  predicate QueueAhead(c: Cell) {
    c.job.state == Running || c.arbiter.owner == Queue
  }

  // beginKeepaliveRequest up to acquire
  function ClaimKeepalive(c: Cell, w: Worker, pool: Pool): Effect {
    var p := c.keepalive;
    if !KeepaliveCurrent(p, w) then Quiet(c, w, Cancel, pool)
    else if KeepaliveBlocked(c) then
      var state := if QueueAhead(c) then WaitingQueue else Requesting;
      Effect(c.(keepalive := p.(state := state)), w.(pc := ClaimWait(c.arbiter.changed)), pool, state != p.state)
    else
      Effect(c.(keepalive := p.(state := Requesting)), w.(pc := Slot), pool, p.state != Requesting)
  }

  // beginKeepaliveRequest after acquire
  function BeginKeepalive(c: Cell, w: Worker, i: nat, pool: Pool, env: Env): Effect {
    var p := c.keepalive;
    if !KeepaliveCurrent(p, w) then Quiet(c, w, DropSlot, pool)
    else if KeepaliveBlocked(c) then
      var state := if QueueAhead(c) then WaitingQueue else p.state;
      Effect(c.(keepalive := p.(state := state)), w.(pc := DropSlotWait(c.arbiter.changed)), pool, state != p.state)
    else Effect(
      Take(c, w, i).(keepalive := p.(
        state := Requesting, requests := p.requests + 1, lastRequest := Some(env.now), nextRequest := None)),
      w.(pc := InRunner, calls := w.calls + [p.requests + 1]),
      pool.(processes := pool.processes + 1), true)
  }

  // randomDuration: every value it may return
  predicate IsSample(delay: int, minimum: int, maximum: int) {
    if maximum <= minimum then delay == minimum else minimum <= delay <= maximum
  }

  // finishKeepaliveRequest; `delay` is what randomDuration returns
  function FinishKeepalive(c: Cell, w: Worker, pool: Pool, env: Env, delay: int): Effect
    requires w.pc.Mark?
  {
    var p := c.keepalive;
    if !KeepaliveCurrent(p, w) then Quiet(ReleaseFor(c, w), w, Exit(false, false), pool)
    else
      var p1 := if w.pc.result.success then p.(lastSuccess := Some(env.now))
                else p.(lastFailure := Some(env.now), lastError := w.pc.result.error);
      Effect(
        ReleaseFor(c, w).(
          keepalive := p1.(state := WaitingNext, nextRequest := Some(env.now + delay)), sampled := env.now),
        w.(pc := Sleep), pool, true)
  }

  // markKeepaliveCancelled
  function MarkKeepaliveCancelled(c: Cell, w: Worker, pool: Pool, env: Env): Effect {
    var c1 := ReleaseFor(c, w);
    if !KeepaliveCurrent(c.keepalive, w) then Quiet(c1, w, Exit(false, false), pool)
    else Effect(
      c1.(arbiter := Signal(c1.arbiter), keepalive := c.keepalive.(
        state := Off, stoppedAt := Some(env.now), nextRequest := None, cancel := None)),
      w.(pc := Exit(false, false), verdict := Abandoned), pool, true)
  }

  // waitKeepaliveNext, one round of its loop
  function LookAtSchedule(c: Cell, w: Worker, pool: Pool, env: Env): Effect {
    var p := c.keepalive;
    if !KeepaliveCurrent(p, w) then Quiet(c, w, Cancel, pool)
    else if p.nextRequest == None || p.nextRequest.value <= env.now then Quiet(c, w, Claim, pool)
    else Quiet(c, w, SleepWait(p.nextRequest.value, p.schedule), pool)
  }

  // ---------------------------------------------------------------- ad-hoc requests

  // RunAdhoc after acquire; `saw` is what its ctx.Err() test returned before it took the lock
  function BeginAdhoc(c: Cell, w: Worker, pool: Pool, saw: bool): Effect {
    if saw || c.arbiter.owner != Adhoc || c.arbiter.ownerRunID != w.runID then Quiet(c, w, Exit(true, false), pool)
    else Effect(c, w.(pc := InRunner), pool.(processes := pool.processes + 1), true)
  }

  // What RunAdhoc gives back, by its flags.
  function AdhocReturned(pool: Pool, slot: bool, process: bool): Pool {
    var freed := slot && pool.slots > 0;
    Pool(
      if freed then pool.slots - 1 else pool.slots,
      if process then DecrementIfPositive(pool.processes) else pool.processes,
      if freed then pool.changed + 1 else pool.changed,
      pool.running - 1)
  }

  // finishAdhocRequest, after the deferred cancel()
  function FinishAdhoc(c: Cell, w: Worker, pool: Pool): Effect
    requires w.pc.Exit?
  {
    Effect(
      ReleaseFor(c, w), w.(pc := Done, cancelled := true), AdhocReturned(pool, w.pc.slot, w.pc.process), true)
  }

  // ---------------------------------------------------------------- the deferred end of a run

  // finishQueueWorker and runWG.Done
  function FinishQueueWorker(c: Cell, w: Worker, pool: Pool): Effect {
    Effect(
      c.(job := c.job.(workers := DecrementIfPositive(c.job.workers))), w.(pc := Done),
      pool.(running := pool.running - 1), c.job.workers > 0)
  }

  // finishKeepaliveWorker and runWG.Done
  function FinishKeepaliveWorker(c: Cell, w: Worker, pool: Pool): Effect {
    Effect(
      c.(keepalive := c.keepalive.(workers := DecrementIfPositive(c.keepalive.workers))), w.(pc := Done),
      pool.(running := pool.running - 1), c.keepalive.workers > 0)
  }

  // ---------------------------------------------------------------- a goroutine's next step

  // What is left open by the goroutine's program counter.
  datatype Choice =
    | Proceed                     // runs its next critical section
    | SawCancelled                // RunAdhoc's ctx.Err() test found the context done
    | Wake                        // the channel it waits on was closed
    | GiveUp                      // its context was done
    | Alarm                       // its timer fired
    | Return(result: Result)      // its runner call returns
    | Sampled(delay: int)         // randomDuration returned this

  predicate Enabled(c: Cell, w: Worker, pool: Pool, env: Env, choice: Choice) {
    match w.pc
    case ClaimWait(g) => (choice == Wake && g < c.arbiter.changed) || (choice == GiveUp && CtxDone(w, env))
    case SlotWait(g) => (choice == Wake && g < pool.changed) || (choice == GiveUp && CtxDone(w, env))
    case SleepWait(at, g) =>
      || (choice == Wake && g < c.keepalive.schedule) || (choice == GiveUp && CtxDone(w, env))
      || (choice == Alarm && at <= env.now)
    case InRunner => choice.Return?
    case Begin => choice == Proceed || (choice == SawCancelled && w.kind == Adhoc && CtxDone(w, env))
    case Mark(_) =>
      if w.kind == Keepalive then choice.Sampled? && IsSample(choice.delay, env.keepaliveMin, env.keepaliveMax)
      else choice == Proceed
    case Done => false
    case _ => choice == Proceed
  }

  function Work(c: Cell, w: Worker, i: nat, pool: Pool, env: Env, choice: Choice): Effect
    requires Enabled(c, w, pool, env, choice)
  {
    match w.pc
    case Claim => if w.kind == Queue then ClaimQueue(c, w, i, pool) else ClaimKeepalive(c, w, pool)
    case ClaimWait(_) => Quiet(c, w, if choice == Wake then Claim else Cancel, pool)
    case Slot => AcquireSlot(c, w, pool, env)
    case SlotWait(_) =>
      Quiet(c, w, if choice == Wake then Slot else if w.kind == Adhoc then Exit(false, false) else Cancel, pool)
    case Begin =>
      if w.kind == Queue then BeginAttempt(c, w, pool, env)
      else if w.kind == Keepalive then BeginKeepalive(c, w, i, pool, env)
      else BeginAdhoc(c, w, pool, choice == SawCancelled)
    case DropSlot => ReleaseSlot(c, w, pool)
    case DropSlotWait(_) => ReleaseSlot(c, w, pool)
    case DropTarget => AbandonTarget(c, w, pool)
    case InRunner => RunnerReturns(c, w, pool, choice.result)
    case Finish(_) => FinishProcess(c, w, pool)
    case Returned(result) =>
      if w.kind == Queue && result.success then MarkSuccess(c, w, pool, env) else CheckContext(c, w, pool, env)
    case Mark(_) =>
      if w.kind == Keepalive then FinishKeepalive(c, w, pool, env, choice.delay) else MarkFailure(c, w, pool)
    case Cancel =>
      if w.kind == Queue then MarkQueueCancelled(c, w, pool, env) else MarkKeepaliveCancelled(c, w, pool, env)
    case Sleep => LookAtSchedule(c, w, pool, env)
    case SleepWait(_, _) =>
      Quiet(c, w, if choice == Wake then Sleep else if choice == GiveUp then Cancel else Claim, pool)
    case Exit(_, _) =>
      if w.kind == Queue then FinishQueueWorker(c, w, pool)
      else if w.kind == Keepalive then FinishKeepaliveWorker(c, w, pool)
      else FinishAdhoc(c, w, pool)
    case Done => Quiet(c, w, Done, pool)
  }
}
