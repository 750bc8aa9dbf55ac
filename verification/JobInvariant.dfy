/**
 The invariant of the job manager: `Core` is what every critical section keeps.

 It is local. A goroutine's part (`Fits`) speaks of that goroutine and its own target; a target's part (`Shaped`)
 names the goroutines it depends on by their index: the run's own (`cancel`) and the arbiter's holder.
 */
module JobInvariant {
  import opened Text
  import opened JobState
  import opened JobSteps
  import opened JobRegistry

  // ---------------------------------------------------------------- goroutines

  // The attempt numbers a run hands to the runner are 1, 2, 3, ... with no gap.
  ghost predicate Counting(calls: seq<nat>) {
    forall n :: 0 <= n < |calls| ==> calls[n] == n + 1
  }

  // Every call returns once, and what it returned is carried along until it is recorded.
  ghost predicate Returning(w: Worker) {
    && (w.kind != Adhoc ==> |w.calls| == |w.results| + if w.pc.InRunner? then 1 else 0)
    && (Pending(w) ==> w.results != [] && w.pc.result == w.results[|w.results| - 1])
  }

  // All but the last of the results are failures.
  ghost predicate OnlyLastMaySucceed(results: seq<Result>) {
    forall n :: 0 <= n < |results| - 1 ==> !results[n].success
  }

  // A queue run is retried until it succeeds: nothing is called after a success, and a success ends the run.
  ghost predicate Retrying(w: Worker) {
    && OnlyLastMaySucceed(w.results)
    && (w.verdict == Delivered ==> w.results != [] && w.results[|w.results| - 1].success)
    && (w.results != [] && w.results[|w.results| - 1].success ==>
      w.pc.Finish? || w.pc.Returned? || w.pc.Exit? || w.pc.Done?)
  }

  // A run hands its subscribers over once, all of them, exactly if it was marked as succeeded.
  ghost predicate History(w: Worker) {
    && w.kind != Nobody
    && Counting(w.calls)
    && Returning(w)
    && (w.kind == Queue ==> Retrying(w))
    && w.handed == (if w.verdict == Delivered then [w.registered] else [])
    && (w.pc.Done? && w.kind != Adhoc ==> w.verdict != Open)
    && (w.kind != Queue ==> w.verdict != Delivered)
  }

  ghost predicate QueueFits(w: Worker, i: nat, c: Cell) {
    && w.runID <= c.job.runID
    && !w.pc.Sleep? && !w.pc.SleepWait? && !w.pc.DropSlotWait? && (w.pc.Exit? ==> !w.pc.slot && !w.pc.process)
    && (w.verdict == Open <==> QueueCurrent(c.job, w))
    && (QueueCurrent(c.job, w) ==>
      && c.job.cancel == Some(i) && c.job.attempts == |w.calls| && c.job.subscribers == w.registered
      && (!w.pc.Cancel? ==> c.job.lastError == LastError(Recorded(w)))
      && !w.pc.DropSlot? && !w.pc.DropTarget? && !w.pc.Exit?)
    && (!QueueCurrent(c.job, w) && !w.pc.Exit? ==> w.cancelled)
    && (w.pc.ClaimWait? ==>
      && w.pc.target <= c.arbiter.changed
      && (w.pc.target == c.arbiter.changed ==> c.arbiter.owner != Nobody && QueueCurrent(c.job, w)))
  }

  ghost predicate KeepaliveFits(w: Worker, i: nat, c: Cell) {
    && w.runID <= c.keepalive.runID
    && !w.pc.DropTarget? && !w.pc.DropSlotWait? && (w.pc.Exit? ==> !w.pc.slot && !w.pc.process)
    && (w.verdict == Open <==> KeepaliveCurrent(c.keepalive, w))
    && (KeepaliveCurrent(c.keepalive, w) ==>
      && c.keepalive.cancel == Some(i) && c.keepalive.requests == |w.calls|
      && (!w.pc.Cancel? ==> c.keepalive.lastError == LastError(Recorded(w)))
      && !w.pc.DropSlot? && !w.pc.Exit?
      && (w.pc.Slot? || w.pc.SlotWait? || w.pc.Begin? ==> c.arbiter.owner == Nobody)
      && (w.pc.Sleep? || w.pc.SleepWait? ==> c.keepalive.state == WaitingNext))
    && (!KeepaliveCurrent(c.keepalive, w) && !w.pc.Exit? ==> w.cancelled)
    && (w.pc.ClaimWait? ==>
      && w.pc.target <= c.arbiter.changed
      && (w.pc.target == c.arbiter.changed ==> c.arbiter.owner != Nobody && KeepaliveCurrent(c.keepalive, w)))
    && (w.pc.SleepWait? ==>
      && w.pc.schedule <= c.keepalive.schedule
      && (w.pc.schedule == c.keepalive.schedule && KeepaliveCurrent(c.keepalive, w) ==>
        c.keepalive.nextRequest == Some(w.pc.at)))
  }

  ghost predicate AdhocFits(w: Worker, i: nat, c: Cell) {
    && (w.pc.Slot? || w.pc.SlotWait? || w.pc.Begin? || w.pc.InRunner? || w.pc.Exit?)
    && (w.pc.Exit? && w.pc.process ==> w.pc.slot)
    && (c.arbiter.cancel == Some(i) || w.cancelled)
    && w.calls == []
  }

  // Goroutine i and its target agree.
  ghost predicate Fits(w: Worker, i: nat, c: Cell) {
    && (HoldsTarget(w) ==> c.arbiter.owner == w.kind && c.arbiter.ownerRunID == w.runID && c.holder == i)
    && match w.kind
       case Queue => QueueFits(w, i, c)
       case Keepalive => KeepaliveFits(w, i, c)
       case Adhoc => AdhocFits(w, i, c)
       case Nobody => false
  }

  // What goroutine w relies on outside its target: the slot pool, the shutdown flag, the ad-hoc counter.
  ghost predicate Ambient(w: Worker, pool: Pool, env: Env) {
    && (w.pc.SlotWait? ==>
      && w.pc.parallel <= pool.changed
      && (w.pc.parallel == pool.changed ==> pool.slots >= env.maxParallel))
    && (env.shuttingDown ==> w.cancelled || w.pc.Exit?)
    && (w.pc.Cancel? && w.verdict == Open ==> CtxDone(w, env))
    && (w.kind == Adhoc ==> w.runID <= env.nextAdhocRunID)
  }

  ghost predicate WorkerOK(w: Worker, i: nat, c: Cell, pool: Pool, env: Env) {
    History(w) && (!w.pc.Done? ==> Ambient(w, pool, env) && Fits(w, i, c))
  }

  predicate SameJob(w: Worker, v: Worker) {
    !w.pc.Done? && !v.pc.Done? && w.kind == v.kind && w.key == v.key
  }

  // No two live goroutines of one kind on one target have the same run number.
  ghost predicate Distinct(ws: seq<Worker>) {
    forall i, j | 0 <= i < j < |ws| :: SameJob(ws[i], ws[j]) ==> ws[i].runID != ws[j].runID
  }

  // ---------------------------------------------------------------- targets

  // Goroutine n is the live one of this kind working on k with this run number.
  predicate IsRun(ws: seq<Worker>, n: Option<nat>, kind: Owner, k: Key, runID: nat) {
    && n.Some? && n.value < |ws|
    && ws[n.value].kind == kind && ws[n.value].key == k && ws[n.value].runID == runID && !ws[n.value].pc.Done?
  }

  // nextRequest lies in the configured window counted from the instant it was sampled.
  predicate InWindow(c: Cell, env: Env) {
    && c.keepalive.nextRequest.Some?
    && IsSample(c.keepalive.nextRequest.value - c.sampled, env.keepaliveMin, env.keepaliveMax)
  }

  ghost predicate Shaped(c: Cell, k: Key, ws: seq<Worker>, env: Env) {
    && (c.job.state == Running ==> IsRun(ws, c.job.cancel, Queue, k, c.job.runID))
    && (c.job.state != Running ==> c.job.cancel == None && c.job.subscribers == map[])
    && c.job.nextAttempt == None
    && (c.keepalive.state != Off ==> IsRun(ws, c.keepalive.cancel, Keepalive, k, c.keepalive.runID))
    && (c.keepalive.state == Off ==> c.keepalive.cancel == None)
    && c.keepalive.state != WaitingQueue
    && (c.keepalive.state == WaitingNext ==> InWindow(c, env))
    && (c.arbiter.owner != Nobody ==>
      && IsRun(ws, Some(c.holder), c.arbiter.owner, k, c.arbiter.ownerRunID)
      && (HoldsTarget(ws[c.holder]) || ws[c.holder].pc.Cancel?))
    && (c.arbiter.owner == Nobody ==> c.arbiter.ownerRunID == 0)
    && (c.arbiter.cancel != None ==> c.arbiter.owner == Adhoc && c.arbiter.cancel == Some(c.holder))
  }

  // The worker counters are exact, and the two modes never have workers at the same time.
  ghost predicate Tallied(c: Cell, k: Key, ws: seq<Worker>) {
    && c.job.workers == Sum(ws, WorkersOf(Queue, k))
    && c.keepalive.workers == Sum(ws, WorkersOf(Keepalive, k))
    && (c.job.workers == 0 || c.keepalive.workers == 0)
  }

  // ---------------------------------------------------------------- registry

  // The listing is in the store's order.
  ghost predicate InOrder(cells: map<Key, Cell>, order: seq<Key>)
    requires Listed(cells, order)
  {
    forall i, j :: 0 <= i < j < |order| ==> Before(cells[order[i]].target, cells[order[j]].target)
  }

  // Every target is listed once and in order; it is filed under its normalized name; ids are unique.
  ghost predicate Registered(cells: map<Key, Cell>, order: seq<Key>) {
    && Listed(cells, order)
    && NoRepeats(order)
    && InOrder(cells, order)
    && (forall k <- cells :: k in order && k == Normalize(cells[k].target.name))
    && (forall k, l | k in cells && l in cells :: cells[k].target.id == cells[l].target.id ==> k == l)
  }

  // ---------------------------------------------------------------- the whole

  ghost predicate Pooled(s: State) {
    && s.pool.slots == Sum(s.workers, Slots)
    && s.pool.processes == Sum(s.workers, Processes)
    && s.pool.running == Sum(s.workers, Goroutines)
  }

  // A goroutine that is Done has no target to agree with.
  ghost predicate FitsIn(s: State, i: nat)
    requires i < |s.workers|
  {
    var w := s.workers[i];
    History(w) && (!w.pc.Done? ==> w.key in s.cells && WorkerOK(w, i, s.cells[w.key], s.pool, s.env))
  }

  ghost predicate AllFit(s: State) {
    forall i :: 0 <= i < |s.workers| ==> FitsIn(s, i)
  }

  ghost predicate AllShaped(s: State) {
    forall k <- s.cells :: Shaped(s.cells[k], k, s.workers, s.env)
  }

  ghost predicate AllTallied(s: State) {
    forall k <- s.cells :: Tallied(s.cells[k], k, s.workers)
  }

  ghost predicate Core(s: State) {
    && Formed(s)
    && Registered(s.cells, s.order)
    && Pooled(s)
    && Distinct(s.workers)
    && AllFit(s)
    && AllShaped(s)
    && AllTallied(s)
  }
}
