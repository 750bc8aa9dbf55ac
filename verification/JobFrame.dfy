/**
 Rely and guarantee. A goroutine's section changes that goroutine, its target and the pool; these lemmas turn local
 facts about them into the invariant of the whole state.
 */
module JobFrame {
  import opened Text
  import opened Streams
  import opened JobState
  import opened JobSteps
  import opened JobInvariant

  // What goroutine i of this kind may do to its target without disturbing any other goroutine there.
  // With i == -1: what anyone may do.
  ghost predicate Guarantee(c: Cell, d: Cell, i: int, kind: Owner) {
    && c.job.runID <= d.job.runID
    && c.keepalive.runID <= d.keepalive.runID
    && c.arbiter.changed <= d.arbiter.changed
    && c.keepalive.schedule <= d.keepalive.schedule
    // the arbiter changes hands only if it is free or i's own, and whoever waits for it is told
    && ((c.arbiter.owner == d.arbiter.owner && c.arbiter.ownerRunID == d.arbiter.ownerRunID && c.holder == d.holder)
        || (c.arbiter.owner == Nobody && (c.keepalive.state == Off || c.keepalive.cancel == Some(i)))
        || (c.arbiter.owner == kind != Nobody && c.holder == i))
    && (c.arbiter.cancel == d.arbiter.cancel || c.holder == i || c.arbiter.owner != Adhoc)
    && (c.arbiter.owner != Nobody && c.arbiter.changed == d.arbiter.changed ==> d.arbiter.owner != Nobody)
    // a current run is i's own or stays as it is, and no older run becomes current
    && (c.job.state == Running && c.job.cancel != Some(i) ==>
      && d.job.state == Running && d.job.runID == c.job.runID && d.job.cancel == c.job.cancel
      && d.job.attempts == c.job.attempts && d.job.subscribers == c.job.subscribers
      && d.job.lastError == c.job.lastError)
    && (c.job.state != Running && d.job.state == Running ==> c.job.runID < d.job.runID)
    && (c.keepalive.state != Off && c.keepalive.cancel != Some(i) ==>
      && d.keepalive.state == c.keepalive.state && d.keepalive.runID == c.keepalive.runID
      && d.keepalive.cancel == c.keepalive.cancel && d.keepalive.requests == c.keepalive.requests
      && d.keepalive.lastError == c.keepalive.lastError
      && (d.keepalive.schedule == c.keepalive.schedule ==> d.keepalive.nextRequest == c.keepalive.nextRequest))
    && (c.keepalive.state == Off && d.keepalive.state != Off ==> c.keepalive.runID < d.keepalive.runID)
  }

  lemma FitsStays(w: Worker, j: nat, c: Cell, d: Cell, i: int, kind: Owner)
    requires Fits(w, j, c) && Guarantee(c, d, i, kind) && i != j
    ensures Fits(w, j, d)
  {
  }

  // The pool and the settings may change like this without disturbing a goroutine that is not told.
  ghost predicate AmbientGuarantee(pool: Pool, env: Env, pool': Pool, env': Env) {
    && pool.changed <= pool'.changed
    && (pool.changed == pool'.changed ==> (pool.slots >= env.maxParallel ==> pool'.slots >= env'.maxParallel))
    && (env'.shuttingDown ==> env.shuttingDown) && (env.rootDone ==> env'.rootDone)
    && env.nextAdhocRunID <= env'.nextAdhocRunID
  }

  // ---------------------------------------------------------------- one goroutine moves

  ghost predicate SameRun(w: Worker, v: Worker) {
    v.kind == w.kind && v.key == w.key && v.runID == w.runID && (w.cancelled ==> v.cancelled)
  }

  // The counters move with the goroutine.
  ghost predicate Counted(c: Cell, w: Worker, pool: Pool, d: Cell, v: Worker, pool': Pool) {
    && pool'.slots - pool.slots == Weight(Slots, v) - Weight(Slots, w)
    && pool'.processes - pool.processes == Weight(Processes, v) - Weight(Processes, w)
    && pool'.running - pool.running == Weight(Goroutines, v) - Weight(Goroutines, w)
    && d.job.workers - c.job.workers == Weight(WorkersOf(Queue, w.key), v) - Weight(WorkersOf(Queue, w.key), w)
    && d.keepalive.workers - c.keepalive.workers
       == Weight(WorkersOf(Keepalive, w.key), v) - Weight(WorkersOf(Keepalive, w.key), w)
  }

  // Goroutine i's step from (c, w, pool) to e is right about its own target and gives its guarantee.
  ghost predicate Legal(c: Cell, w: Worker, i: nat, ws: seq<Worker>, pool: Pool, env: Env, e: Effect) {
    && i < |ws| && ws[i] == w
    && SameRun(w, e.worker) && e.cell.target == c.target
    && WorkerOK(e.worker, i, e.cell, e.pool, env)
    && Shaped(e.cell, w.key, ws[i := e.worker], env)
    && Counted(c, w, pool, e.cell, e.worker, e.pool)
    && Guarantee(c, e.cell, i, w.kind)
    && AmbientGuarantee(pool, env, e.pool, env)
  }

  lemma OthersStillFit(s: State, i: nat, e: Effect)
    requires Formed(s) && AllFit(s) && Live(s, i)
    requires Legal(s.cells[s.workers[i].key], s.workers[i], i, s.workers, s.pool, s.env, e)
    ensures AllFit(Commit(s, i, e))
  {
    hide Shaped, Counted, Snapshot, Publish, Formed, History;
    var t, w := Commit(s, i, e), s.workers[i];
    forall j | 0 <= j < |t.workers| ensures FitsIn(t, j) {
      assert FitsIn(s, j);
      if j != i && s.workers[j].key == w.key && !s.workers[j].pc.Done? {
        FitsStays(s.workers[j], j, s.cells[w.key], e.cell, i, w.kind);
      }
    }
  }

  // Another target does not name goroutine i.
  lemma OtherShape(c: Cell, k: Key, ws: seq<Worker>, i: nat, v: Worker, env: Env)
    requires i < |ws| && ws[i].key != k && Shaped(c, k, ws, env) && v.key == ws[i].key
    ensures Shaped(c, k, ws[i := v], env)
  {
  }

  lemma TargetsKeepShape(s: State, i: nat, e: Effect)
    requires Formed(s) && AllShaped(s) && Live(s, i)
    requires Legal(s.cells[s.workers[i].key], s.workers[i], i, s.workers, s.pool, s.env, e)
    ensures AllShaped(Commit(s, i, e))
  {
    hide Shaped, Counted, Snapshot, Publish, Formed, WorkerOK, Guarantee;
    var t, k := Commit(s, i, e), s.workers[i].key;
    forall l <- t.cells ensures Shaped(t.cells[l], l, t.workers, t.env) {
      if l != k { OtherShape(s.cells[l], l, s.workers, i, e.worker, s.env); }
    }
  }

  lemma TallyMoves(c: Cell, k: Key, ws: seq<Worker>, i: nat, d: Cell, v: Worker)
    requires i < |ws| && !ws[i].pc.Done? && Tallied(c, k, ws) && SameRun(ws[i], v)
    requires d.job.workers - c.job.workers == Weight(WorkersOf(Queue, k), v) - Weight(WorkersOf(Queue, k), ws[i])
    requires d.keepalive.workers - c.keepalive.workers
      == Weight(WorkersOf(Keepalive, k), v) - Weight(WorkersOf(Keepalive, k), ws[i])
    ensures Tallied(d, k, ws[i := v])
  {
    SumUpdate(ws, i, v, WorkersOf(Queue, k));
    SumUpdate(ws, i, v, WorkersOf(Keepalive, k));
    SumAtLeast(ws, i, WorkersOf(ws[i].kind, k));
  }

  lemma TalliesMove(s: State, i: nat, e: Effect)
    requires Formed(s) && AllTallied(s) && Live(s, i)
    requires Legal(s.cells[s.workers[i].key], s.workers[i], i, s.workers, s.pool, s.env, e)
    ensures AllTallied(Commit(s, i, e))
  {
    hide Shaped, Snapshot, Publish, Formed, WorkerOK, Guarantee, Tallied;
    var t := Commit(s, i, e);
    forall l <- t.cells ensures Tallied(t.cells[l], l, t.workers) {
      TallyMoves(s.cells[l], l, s.workers, i, t.cells[l], e.worker);
    }
  }

  lemma StillDistinct(ws: seq<Worker>, i: nat, v: Worker)
    requires Distinct(ws) && i < |ws| && SameRun(ws[i], v) && !ws[i].pc.Done?
    ensures Distinct(ws[i := v])
  {
    var ws' := ws[i := v];
    forall a, b | 0 <= a < b < |ws'| ensures SameJob(ws'[a], ws'[b]) ==> ws'[a].runID != ws'[b].runID {
      assert SameJob(ws'[a], ws'[b]) ==> SameJob(ws[a], ws[b]);
    }
  }

  lemma PoolMoves(s: State, i: nat, e: Effect)
    requires Formed(s) && Pooled(s) && Live(s, i)
    requires Legal(s.cells[s.workers[i].key], s.workers[i], i, s.workers, s.pool, s.env, e)
    ensures Pooled(Commit(s, i, e))
  {
    hide Shaped, Snapshot, Publish, Formed, WorkerOK, Guarantee;
    SumUpdate(s.workers, i, e.worker, Slots);
    SumUpdate(s.workers, i, e.worker, Processes);
    SumUpdate(s.workers, i, e.worker, Goroutines);
  }

  lemma StillRegistered(cells: map<Key, Cell>, order: seq<Key>, k: Key, d: Cell)
    requires Registered(cells, order) && k in cells && d.target == cells[k].target
    ensures Registered(cells[k := d], order)
  {
    var cells' := cells[k := d];
    assert forall l <- cells :: cells'[l].target == cells[l].target;
  }

  lemma LegalKeeps(s: State, i: nat, e: Effect)
    requires Core(s) && Live(s, i)
    requires Legal(s.cells[s.workers[i].key], s.workers[i], i, s.workers, s.pool, s.env, e)
    ensures Core(Commit(s, i, e))
  {
    hide Registered, WorkerOK, Shaped, Tallied, Distinct, FitsIn, Snapshot, Publish, Guarantee, Counted;
    OthersStillFit(s, i, e);
    TargetsKeepShape(s, i, e);
    TalliesMove(s, i, e);
    StillDistinct(s.workers, i, e.worker);
    PoolMoves(s, i, e);
    StillRegistered(s.cells, s.order, s.workers[i].key, e.cell);
  }

  // ---------------------------------------------------------------- what goroutine i knows when it takes the lock

  // Its own part of the invariant, that it is in the counters, that an arbiter in its run's name is its own, and
  // that the other mode is off.
  ghost predicate Around(c: Cell, w: Worker, i: nat, ws: seq<Worker>, pool: Pool, env: Env) {
    && i < |ws| && ws[i] == w && !w.pc.Done?
    && WorkerOK(w, i, c, pool, env) && Shaped(c, w.key, ws, env)
    && Weight(Slots, w) <= pool.slots
    && Weight(Processes, w) <= pool.processes
    && (c.arbiter.owner == w.kind && c.arbiter.ownerRunID == w.runID ==> c.holder == i)
    && (w.kind == Queue ==> c.job.workers > 0 && c.keepalive.state == Off && c.arbiter.owner != Keepalive)
    && (w.kind == Keepalive ==> c.keepalive.workers > 0 && c.job.state != Running && c.arbiter.owner != Queue)
  }

  // A goroutine that keeps what it holds, and stays, keeps its target's shape.
  lemma ShapeSurvives(c: Cell, k: Key, ws: seq<Worker>, i: nat, v: Worker, env: Env)
    requires i < |ws| && Shaped(c, k, ws, env) && SameRun(ws[i], v) && !v.pc.Done?
    requires HoldsTarget(ws[i]) || ws[i].pc.Cancel? ==> HoldsTarget(v) || v.pc.Cancel?
    ensures Shaped(c, k, ws[i := v], env)
  {
  }

  lemma HolderIsUnique(ws: seq<Worker>, i: nat, c: Cell, env: Env)
    requires i < |ws| && Distinct(ws) && Shaped(c, ws[i].key, ws, env) && !ws[i].pc.Done?
    requires c.arbiter.owner == ws[i].kind != Nobody && c.arbiter.ownerRunID == ws[i].runID
    ensures c.holder == i
  {
    assert SameJob(ws[c.holder], ws[i]) && SameJob(ws[i], ws[c.holder]);
  }

  // A run that is current, and an arbiter that is owned, have a live goroutine behind them, so its counter is positive.
  lemma CountersAreWitnessed(c: Cell, k: Key, ws: seq<Worker>, env: Env)
    requires Shaped(c, k, ws, env) && Tallied(c, k, ws)
    ensures c.job.state == Running || c.arbiter.owner == Queue ==> c.job.workers > 0
    ensures c.keepalive.state != Off || c.arbiter.owner == Keepalive ==> c.keepalive.workers > 0
  {
    if c.job.state == Running { SumAtLeast(ws, c.job.cancel.value, WorkersOf(Queue, k)); }
    if c.keepalive.state != Off { SumAtLeast(ws, c.keepalive.cancel.value, WorkersOf(Keepalive, k)); }
    if c.arbiter.owner == Queue || c.arbiter.owner == Keepalive {
      SumAtLeast(ws, c.holder, WorkersOf(c.arbiter.owner, k));
    }
  }

  lemma CoreAround(s: State, i: nat)
    requires Core(s) && Live(s, i)
    ensures Around(s.cells[s.workers[i].key], s.workers[i], i, s.workers, s.pool, s.env)
  {
    hide Registered, Distinct, Formed;
    var w, k := s.workers[i], s.workers[i].key;
    var c := s.cells[k];
    assert FitsIn(s, i) && Shaped(c, k, s.workers, s.env) && Tallied(c, k, s.workers);
    SumAtLeast(s.workers, i, Slots);
    SumAtLeast(s.workers, i, Processes);
    SumAtLeast(s.workers, i, WorkersOf(w.kind, k));
    CountersAreWitnessed(c, k, s.workers, s.env);
    if c.arbiter.owner == w.kind && c.arbiter.ownerRunID == w.runID { HolderIsUnique(s.workers, i, c, s.env); }
  }
}
