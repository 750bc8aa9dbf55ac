/** Every section an API caller runs keeps the invariant. */
module JobApiKeeps {
  import opened Text
  import opened Streams
  import opened JobState
  import opened JobSteps
  import opened JobRegistry
  import opened JobApi
  import opened JobInvariant
  import opened JobFrame

  lemma BroadcastKeeps(s: State)
    requires Core(s)
    ensures Core(Broadcast(s))
  {
    hide Registered, Distinct, Shaped, Tallied, WorkerOK, Snapshot, Publish;
    var t := Broadcast(s);
    forall i | 0 <= i < |t.workers| ensures FitsIn(t, i) { assert FitsIn(s, i); }
  }

  lemma CellFacts(s: State, k: Key)
    requires Core(s) && k in s.cells
    ensures Formed(s) && Shaped(s.cells[k], k, s.workers, s.env) && Tallied(s.cells[k], k, s.workers)
  {
  }

  lemma CoreFormed(s: State)
    requires Core(s)
    ensures Formed(s)
  {
  }

  // ---------------------------------------------------------------- changing one target

  ghost predicate SameCounters(c: Cell, d: Cell) {
    d.target == c.target && d.job.workers == c.job.workers && d.keepalive.workers == c.keepalive.workers
  }

  // Anyone may change a target like this.
  lemma CellKeeps(s: State, k: Key, d: Cell)
    requires Core(s) && k in s.cells
    requires Guarantee(s.cells[k], d, -1, Nobody) && Shaped(d, k, s.workers, s.env) && SameCounters(s.cells[k], d)
    ensures Core(s.(cells := s.cells[k := d]))
  {
    hide Registered, Distinct, Shaped, History, Ambient, Fits, Guarantee;
    var t := s.(cells := s.cells[k := d]);
    StillRegistered(s.cells, s.order, k, d);
    forall i | 0 <= i < |t.workers| ensures FitsIn(t, i) {
      assert FitsIn(s, i);
      var w := s.workers[i];
      if !w.pc.Done? && w.key == k { FitsStays(w, i, s.cells[k], d, -1, Nobody); }
    }
  }

  // A target is changed together with the goroutine that has its run; v is that goroutine afterwards.
  ghost predicate Marks(s: State, k: Key, n: nat, d: Cell, v: Worker) {
    && n < |s.workers| && s.workers[n].key == k && k in s.cells
    && Legal(s.cells[k], s.workers[n], n, s.workers, s.pool, s.env, Effect(d, v, s.pool, false))
  }

  lemma MarksKeeps(s: State, k: Key, n: nat, d: Cell, v: Worker)
    requires Core(s) && Live(s, n) && Marks(s, k, n, d, v)
    ensures Core(s.(cells := s.cells[k := d], workers := s.workers[n := v]))
  {
    hide Core, Legal;
    LegalKeeps(s, n, Effect(d, v, s.pool, false));
  }

  // The goroutine a target names as its run's is around, and is the only one that is current.
  lemma RunAround(s: State, k: Key, n: nat)
    requires Core(s) && k in s.cells
    requires || s.cells[k].job.cancel == Some(n) || s.cells[k].keepalive.cancel == Some(n)
             || s.cells[k].arbiter.cancel == Some(n)
    ensures Live(s, n) && s.workers[n].key == k && Around(s.cells[k], s.workers[n], n, s.workers, s.pool, s.env)
    ensures s.cells[k].job.cancel == Some(n) ==>
      s.workers[n].kind == Queue && QueueCurrent(s.cells[k].job, s.workers[n])
    ensures s.cells[k].keepalive.cancel == Some(n) ==>
      s.workers[n].kind == Keepalive && KeepaliveCurrent(s.cells[k].keepalive, s.workers[n])
    ensures s.cells[k].arbiter.cancel == Some(n) ==> s.workers[n].kind == Adhoc
  {
    assert Shaped(s.cells[k], k, s.workers, s.env);
    hide Core;
    CoreAround(s, n);
  }

  // ---------------------------------------------------------------- stopping

  lemma QueueStoppedLegal(c: Cell, w: Worker, i: nat, ws: seq<Worker>, pool: Pool, env: Env)
    requires Around(c, w, i, ws, pool, env) && w.kind == Queue && c.job.cancel == Some(i) && QueueCurrent(c.job, w)
    ensures Legal(c, w, i, ws, pool, env,
                  Effect(QueueStopped(c, env.now), w.(cancelled := true, verdict := Abandoned), pool, false))
  {
    hide Counting;
  }

  lemma StopQueueKeeps(s: State, k: Key)
    requires Core(s)
    ensures Core(StopQueue(s, k))
  {
    if k in s.cells && QueueActive(s.cells[k]) {
      var c := s.cells[k];
      assert Shaped(c, k, s.workers, s.env);
      if c.job.cancel.Some? {
        var n := c.job.cancel.value;
        RunAround(s, k, n);
        QueueStoppedLegal(c, s.workers[n], n, s.workers, s.pool, s.env);
        hide Core, Legal, Around;
        MarksKeeps(s, k, n, QueueStopped(c, s.env.now), s.workers[n].(cancelled := true, verdict := Abandoned));
      } else {
        assert Guarantee(c, QueueStopped(c, s.env.now), -1, Nobody);
        hide Core;
        CellKeeps(s, k, QueueStopped(c, s.env.now));
      }
    }
  }

  lemma KeepaliveStoppedLegal(c: Cell, w: Worker, i: nat, ws: seq<Worker>, pool: Pool, env: Env)
    requires Around(c, w, i, ws, pool, env)
    requires w.kind == Keepalive && c.keepalive.cancel == Some(i) && KeepaliveCurrent(c.keepalive, w)
    ensures Legal(c, w, i, ws, pool, env,
                  Effect(KeepaliveStopped(c, env.now), w.(cancelled := true, verdict := Abandoned), pool, false))
  {
    hide Counting;
  }

  lemma StopKeepaliveKeeps(s: State, k: Key)
    requires Core(s)
    ensures Core(StopKeepalive(s, k))
  {
    if k in s.cells && KeepaliveActive(s.cells[k]) {
      var c := s.cells[k];
      assert Shaped(c, k, s.workers, s.env);
      if c.keepalive.cancel.Some? {
        var n := c.keepalive.cancel.value;
        RunAround(s, k, n);
        KeepaliveStoppedLegal(c, s.workers[n], n, s.workers, s.pool, s.env);
        hide Core, Legal, Around;
        MarksKeeps(s, k, n, KeepaliveStopped(c, s.env.now), s.workers[n].(cancelled := true, verdict := Abandoned));
      } else {
        assert Guarantee(c, KeepaliveStopped(c, s.env.now), -1, Nobody);
        hide Core;
        CellKeeps(s, k, KeepaliveStopped(c, s.env.now));
      }
    }
  }

  lemma AdhocStoppedLegal(c: Cell, w: Worker, i: nat, ws: seq<Worker>, pool: Pool, env: Env)
    requires Around(c, w, i, ws, pool, env) && w.kind == Adhoc && c.arbiter.cancel == Some(i)
    ensures Legal(c, w, i, ws, pool, env,
                  Effect(c.(arbiter := c.arbiter.(cancel := None)), w.(cancelled := true), pool, false))
  {
    hide Counting;
  }

  lemma StopAdhocKeeps(s: State, k: Key)
    requires Core(s)
    ensures Core(StopAdhoc(s, k))
  {
    hide Core, Legal, Around, Shaped;
    CoreFormed(s);
    if k in s.cells && s.cells[k].arbiter.owner == Adhoc {
      var c := s.cells[k];
      if c.arbiter.cancel.Some? {
        var n := c.arbiter.cancel.value;
        RunAround(s, k, n);
        AdhocStoppedLegal(c, s.workers[n], n, s.workers, s.pool, s.env);
        MarksKeeps(s, k, n, c.(arbiter := c.arbiter.(cancel := None)), s.workers[n].(cancelled := true));
      } else {
        assert c.arbiter.(cancel := None) == c.arbiter;
        assert s.cells[k := c] == s.cells;
      }
    }
  }

  lemma StopTargetKeeps(s: State, k: Key)
    requires Core(s)
    ensures Core(StopTarget(s, k))
  {
    hide Core;
    CoreFormed(s);
    StopQueueKeeps(s, k);
    StopKeepaliveKeeps(StopQueue(s, k), k);
    StopAdhocKeeps(StopKeepalive(StopQueue(s, k), k), k);
  }

  lemma StopAllKeeps(s: State, keys: seq<Key>)
    requires Core(s)
    ensures Core(StopAll(s, keys))
  {
    hide Core;
    CoreFormed(s);
    if keys != [] {
      StopAllKeeps(s, keys[..|keys| - 1]);
      StopTargetKeeps(StopAll(s, keys[..|keys| - 1]), keys[|keys| - 1]);
    }
  }

  lemma StopKeeps(s: State, keys: seq<Key>)
    requires Core(s)
    ensures Core(Stop(s, keys))
  {
    hide Core;
    CoreFormed(s);
    StopAllKeeps(s, keys);
    BroadcastKeeps(StopAll(s, keys));
  }

  lemma StopByIDKeeps(s: State, id: int)
    requires Core(s)
    ensures Core(StopByID(s, id))
  {
    hide Core;
    CoreFormed(s);
    var k := KeyOf(s.cells, s.order, id);
    if k.Some? {
      StopTargetKeeps(s, k.value);
      BroadcastKeeps(StopTarget(s, k.value));
    }
  }

  lemma PrepareModeKeeps(s: State, k: Key, desired: Owner)
    requires Core(s)
    ensures Core(PrepareMode(s, k, desired).0)
  {
    hide Core;
    CoreFormed(s);
    var s1 := StopAdhoc(s, k);
    StopAdhocKeeps(s, k);
    var s2 := if desired == Queue then StopKeepalive(s1, k) else s1;
    StopKeepaliveKeeps(s1, k);
    var s3 := if desired == Keepalive then StopQueue(s2, k) else s2;
    StopQueueKeeps(s2, k);
    BroadcastKeeps(s3);
  }

  // ---------------------------------------------------------------- starting

  lemma SubscribedLegal(c: Cell, w: Worker, i: nat, ws: seq<Worker>, pool: Pool, env: Env, sub: Subscriber)
    requires Around(c, w, i, ws, pool, env) && w.kind == Queue && c.job.cancel == Some(i) && QueueCurrent(c.job, w)
    ensures Legal(c, w, i, ws, pool, env, Effect(
                  c.(job := c.job.(subscribers := WithSubscriber(c.job.subscribers, sub))),
                  w.(registered := WithSubscriber(w.registered, sub)), pool, false))
  {
    hide Counting, WithSubscriber;
  }

  lemma AddSubscriberKeeps(s: State, k: Key, sub: Subscriber)
    requires Core(s) && k in s.cells && s.cells[k].job.state == Running
    ensures Core(AddSubscriber(s, k, sub))
  {
    var c := s.cells[k];
    assert Shaped(c, k, s.workers, s.env);
    var n := c.job.cancel.value;
    RunAround(s, k, n);
    SubscribedLegal(c, s.workers[n], n, s.workers, s.pool, s.env, sub);
    hide Core, Legal, Around;
    MarksKeeps(s, k, n, c.(job := c.job.(subscribers := WithSubscriber(c.job.subscribers, sub))),
               s.workers[n].(registered := WithSubscriber(s.workers[n].registered, sub)));
  }

  lemma JoinQueueKeeps(s: State, k: Key, sub: Subscriber)
    requires Core(s)
    ensures Core(JoinQueue(s, k, sub))
  {
    if k in s.cells && s.cells[k].job.state == Running { AddSubscriberKeeps(s, k, sub); }
    hide Core;
  }

  ghost predicate FreshRun(c: Cell, v: Worker, env: Env) {
    match v.kind
    case Queue => c.job.runID < v.runID
    case Keepalive => c.keepalive.runID < v.runID
    case _ => env.nextAdhocRunID < v.runID
  }

  // A new goroutine v for target k, whose entry becomes d, with a run number above every one in use.
  ghost predicate Spawned(c: Cell, k: Key, d: Cell, v: Worker, ws: seq<Worker>, pool: Pool, env: Env, env': Env) {
    && v.key == k && (v.pc.Claim? || v.pc.Slot?) && FreshRun(c, v, env)
    && d.target == c.target
    && WorkerOK(v, |ws|, d, pool, env')
    && Shaped(d, k, ws + [v], env')
    && d.job.workers == c.job.workers + Weight(WorkersOf(Queue, k), v)
    && d.keepalive.workers == c.keepalive.workers + Weight(WorkersOf(Keepalive, k), v)
    && (d.job.workers == 0 || d.keepalive.workers == 0)
    && Guarantee(c, d, |ws|, v.kind)
    && AmbientGuarantee(pool, env, pool, env')
    && env'.keepaliveMin == env.keepaliveMin && env'.keepaliveMax == env.keepaliveMax
  }

  lemma SpawnFits(s: State, k: Key, d: Cell, v: Worker, env: Env)
    requires Formed(s) && AllFit(s) && k in s.cells && Spawned(s.cells[k], k, d, v, s.workers, s.pool, s.env, env)
    ensures AllFit(Spawn(s.(env := env), k, d, v))
  {
    hide Shaped, History, Fits, Guarantee, FreshRun;
    var t := Spawn(s.(env := env), k, d, v);
    forall i | 0 <= i < |t.workers| ensures FitsIn(t, i) {
      if i < |s.workers| {
        assert FitsIn(s, i);
        var w := s.workers[i];
        if !w.pc.Done? && w.key == k { FitsStays(w, i, s.cells[k], d, |s.workers|, v.kind); }
      }
    }
  }

  lemma SpawnDistinct(s: State, k: Key, d: Cell, v: Worker, env: Env)
    requires AllFit(s) && Distinct(s.workers) && k in s.cells
    requires Spawned(s.cells[k], k, d, v, s.workers, s.pool, s.env, env)
    ensures Distinct(s.workers + [v])
  {
    hide Shaped, History, Guarantee;
    var ws := s.workers + [v];
    forall i, j | 0 <= i < j < |ws| ensures SameJob(ws[i], ws[j]) ==> ws[i].runID != ws[j].runID {
      assert FitsIn(s, i);
    }
  }

  // Nothing a target says about the goroutines there are is changed by one more of another target.
  lemma ShapeWithOneMore(c: Cell, k: Key, ws: seq<Worker>, v: Worker, env: Env, env': Env)
    requires Shaped(c, k, ws, env) && env'.keepaliveMin == env.keepaliveMin && env'.keepaliveMax == env.keepaliveMax
    ensures Shaped(c, k, ws + [v], env')
  {
  }

  lemma SpawnTallied(s: State, k: Key, d: Cell, v: Worker, env: Env)
    requires Formed(s) && Pooled(s) && AllTallied(s) && k in s.cells
    requires Spawned(s.cells[k], k, d, v, s.workers, s.pool, s.env, env)
    ensures Pooled(Spawn(s.(env := env), k, d, v)) && AllTallied(Spawn(s.(env := env), k, d, v))
  {
    hide Shaped, WorkerOK, Guarantee, FreshRun;
    var t := Spawn(s.(env := env), k, d, v);
    SumAppend(s.workers, v, Slots);
    SumAppend(s.workers, v, Processes);
    SumAppend(s.workers, v, Goroutines);
    forall l <- t.cells ensures Tallied(t.cells[l], l, t.workers) {
      assert Tallied(s.cells[l], l, s.workers);
      SumAppend(s.workers, v, WorkersOf(Queue, l));
      SumAppend(s.workers, v, WorkersOf(Keepalive, l));
    }
  }

  lemma SpawnKeeps(s: State, k: Key, d: Cell, v: Worker, env: Env)
    requires Core(s) && k in s.cells && Spawned(s.cells[k], k, d, v, s.workers, s.pool, s.env, env)
    ensures Core(Spawn(s.(env := env), k, d, v))
  {
    SpawnFits(s, k, d, v, env);
    SpawnDistinct(s, k, d, v, env);
    StillRegistered(s.cells, s.order, k, d);
    SpawnTallied(s, k, d, v, env);
    var t := Spawn(s.(env := env), k, d, v);
    hide Registered, Distinct, Shaped, Tallied, WorkerOK, Guarantee, FreshRun, FitsIn;
    forall l <- t.cells ensures Shaped(t.cells[l], l, t.workers, t.env) {
      if l != k { ShapeWithOneMore(s.cells[l], l, s.workers, v, s.env, env); }
    }
  }

  lemma QueueStartedSpawns(c: Cell, k: Key, ws: seq<Worker>, pool: Pool, env: Env, sub: Subscriber)
    requires Shaped(c, k, ws, env) && !env.shuttingDown && c.job.state != Running && c.job.workers >= 0
    requires c.keepalive.state == Off && c.keepalive.workers == 0
    ensures var d := QueueStarted(c, |ws|, env.now, sub);
      Spawned(c, k, d, NewWorker(Queue, k, d.job.runID, Claim, d.job.subscribers), ws, pool, env, env)
  {
    hide WithSubscriber;
  }

  lemma StartQueueKeeps(s: State, k: Key, sub: Subscriber)
    requires Core(s)
    ensures Core(StartQueue(s, k, sub))
  {
    match StartQueueOutcome(s, k)
    case Already => if !s.env.shuttingDown { AddSubscriberKeeps(s, k, sub); } hide Core;
    case Started =>
      var c := s.cells[k];
      assert Shaped(c, k, s.workers, s.env) && Tallied(c, k, s.workers);
      QueueStartedSpawns(c, k, s.workers, s.pool, s.env, sub);
      var d := QueueStarted(c, |s.workers|, s.env.now, sub);
      hide Core, Spawned;
      SpawnKeeps(s, k, d, NewWorker(Queue, k, d.job.runID, Claim, d.job.subscribers), s.env);
      BroadcastKeeps(Spawn(s, k, d, NewWorker(Queue, k, d.job.runID, Claim, d.job.subscribers)));
    case _ =>
  }

  lemma KeepaliveStartedSpawns(c: Cell, k: Key, ws: seq<Worker>, pool: Pool, env: Env)
    requires Shaped(c, k, ws, env) && !env.shuttingDown && c.keepalive.state == Off && c.keepalive.workers >= 0
    requires c.job.state != Running && c.job.workers == 0
    ensures var d := KeepaliveStarted(c, |ws|, env.now);
      Spawned(c, k, d, NewWorker(Keepalive, k, d.keepalive.runID, Claim, map[]), ws, pool, env, env)
  {
  }

  lemma StartKeepaliveKeeps(s: State, k: Key)
    requires Core(s)
    ensures Core(StartKeepalive(s, k))
  {
    if StartKeepaliveOutcome(s, k) == Started {
      var c := s.cells[k];
      assert Shaped(c, k, s.workers, s.env) && Tallied(c, k, s.workers);
      KeepaliveStartedSpawns(c, k, s.workers, s.pool, s.env);
      var d := KeepaliveStarted(c, |s.workers|, s.env.now);
      hide Core, Spawned;
      SpawnKeeps(s, k, d, NewWorker(Keepalive, k, d.keepalive.runID, Claim, map[]), s.env);
      BroadcastKeeps(Spawn(s, k, d, NewWorker(Keepalive, k, d.keepalive.runID, Claim, map[])));
    }
  }

  lemma AdhocReservedSpawns(c: Cell, k: Key, ws: seq<Worker>, pool: Pool, env: Env)
    requires Shaped(c, k, ws, env) && Tallied(c, k, ws) && !env.shuttingDown && !Busy(c)
    ensures var run := env.nextAdhocRunID + 1;
      Spawned(c, k, AdhocReserved(c, |ws|, run), NewWorker(Adhoc, k, run, Slot, map[]), ws, pool, env,
              env.(nextAdhocRunID := run))
  {
  }

  lemma ReserveAdhocKeeps(s: State, id: int)
    requires Core(s)
    ensures Core(ReserveAdhoc(s, id))
  {
    hide Core, Spawned;
    CoreFormed(s);
    if ReserveOutcome(s, id) == Reserved {
      var k := KeyOf(s.cells, s.order, id).value;
      var c, run := s.cells[k], s.env.nextAdhocRunID + 1;
      CellFacts(s, k);
      AdhocReservedSpawns(c, k, s.workers, s.pool, s.env);
      var env := s.env.(nextAdhocRunID := run);
      SpawnKeeps(s, k, AdhocReserved(c, |s.workers|, run), NewWorker(Adhoc, k, run, Slot, map[]), env);
      BroadcastKeeps(
        Spawn(s.(env := env), k, AdhocReserved(c, |s.workers|, run), NewWorker(Adhoc, k, run, Slot, map[])));
    }
  }

  // ---------------------------------------------------------------- settings, shutdown, time

  // Contexts get cancelled, nothing else happens to the goroutines.
  ghost predicate OnlyCancels(ws: seq<Worker>, ws': seq<Worker>) {
    && |ws'| == |ws|
    && forall i :: 0 <= i < |ws| ==> ws'[i] == ws[i] || ws'[i] == ws[i].(cancelled := true)
  }

  lemma ShapeDespiteCancels(c: Cell, k: Key, ws: seq<Worker>, ws': seq<Worker>, env: Env, env': Env)
    requires Shaped(c, k, ws, env) && OnlyCancels(ws, ws')
    requires env'.keepaliveMin == env.keepaliveMin && env'.keepaliveMax == env.keepaliveMax
    ensures Shaped(c, k, ws', env')
  {
  }

  lemma WorkerDespiteCancels(w: Worker, v: Worker, i: nat, c: Cell, pool: Pool, env: Env, env': Env)
    requires WorkerOK(w, i, c, pool, env) && (v == w || v == w.(cancelled := true))
    requires env'.shuttingDown && !v.pc.Done? ==> v.cancelled || v.pc.Exit?
    requires env'.maxParallel == env.maxParallel && env'.nextAdhocRunID == env.nextAdhocRunID
    requires env.rootDone ==> env'.rootDone
    ensures WorkerOK(v, i, c, pool, env')
  {
    hide Counting, LastError, OnlyLastMaySucceed;
  }

  // Time passes, the root context is cancelled, contexts are cancelled, shutdown begins.
  lemma CancelsKeep(s: State, ws: seq<Worker>, env: Env)
    requires Core(s) && OnlyCancels(s.workers, ws)
    requires env.keepaliveMin == s.env.keepaliveMin && env.keepaliveMax == s.env.keepaliveMax
    requires env.maxParallel == s.env.maxParallel && env.nextAdhocRunID == s.env.nextAdhocRunID
    requires s.env.rootDone ==> env.rootDone
    requires env.shuttingDown ==> forall i :: 0 <= i < |ws| && !ws[i].pc.Done? ==> ws[i].cancelled || ws[i].pc.Exit?
    ensures Core(s.(workers := ws, env := env))
  {
    var t := s.(workers := ws, env := env);
    hide Registered, Shaped, WorkerOK;
    forall i | 0 <= i < |ws| ensures FitsIn(t, i) {
      assert FitsIn(s, i);
      var w := s.workers[i];
      if !w.pc.Done? { WorkerDespiteCancels(w, ws[i], i, s.cells[w.key], s.pool, s.env, env); }
    }
    forall k <- t.cells ensures Shaped(t.cells[k], k, ws, env) {
      ShapeDespiteCancels(s.cells[k], k, s.workers, ws, s.env, env);
    }
    forall m: Metric ensures Sum(ws, m) == Sum(s.workers, m) {
      SumSame(s.workers, ws, m);
    }
    forall k <- t.cells ensures Tallied(t.cells[k], k, ws) {
      assert Tallied(s.cells[k], k, s.workers);
    }
    assert forall i, j | 0 <= i < j < |ws| :: SameJob(ws[i], ws[j]) ==> SameJob(s.workers[i], s.workers[j]);
  }

  lemma DropRequestKeeps(s: State, i: nat)
    requires Core(s) && i < |s.workers|
    ensures Core(DropRequest(s, i))
  {
    var ws := CancelContext(s.workers, Some(i));
    forall j | 0 <= j < |ws| && !ws[j].pc.Done? && s.env.shuttingDown ensures ws[j].cancelled || ws[j].pc.Exit? {
      assert FitsIn(s, j);
    }
    hide Core;
    CancelsKeep(s, ws, s.env);
  }

  // Shutdown cancels whatever is not cancelled yet, except goroutines on their way out.
  lemma ShutdownReachesAll(s: State, i: nat)
    requires Core(s) && i < |s.workers| && !s.workers[i].pc.Done?
    ensures s.workers[i].cancelled || s.workers[i].pc.Exit? || ToCancel(s.cells, i)
  {
    hide Registered, Distinct, Tallied, Formed;
    var w := s.workers[i];
    assert FitsIn(s, i) && Shaped(s.cells[w.key], w.key, s.workers, s.env);
  }

  lemma BeginShutdownKeeps(s: State)
    requires Core(s)
    ensures Core(BeginShutdown(s))
  {
    if !s.env.shuttingDown {
      var t := BeginShutdown(s);
      forall i | 0 <= i < |t.workers| && !t.workers[i].pc.Done?
        ensures t.workers[i].cancelled || t.workers[i].pc.Exit?
      {
        ShutdownReachesAll(s, i);
      }
      hide Core;
      CancelsKeep(s, t.workers, t.env);
    }
  }

  lemma RescheduledFits(c: Cell, k: Key, ws: seq<Worker>, env: Env, env': Env, samples: map<Key, int>)
    requires Shaped(c, k, ws, env)
    requires Resampled(c) ==> k in samples && IsSample(samples[k], env'.keepaliveMin, env'.keepaliveMax)
    ensures Guarantee(c, Rescheduled(c, env.now, samples, k), -1, Nobody)
    ensures SameCounters(c, Rescheduled(c, env.now, samples, k))
    ensures Shaped(Rescheduled(c, env.now, samples, k), k, ws, env')
  {
  }

  lemma UnchangedFits(c: Cell, k: Key, ws: seq<Worker>, env: Env, env': Env)
    requires Shaped(c, k, ws, env) && env'.keepaliveMin == env.keepaliveMin && env'.keepaliveMax == env.keepaliveMax
    ensures Guarantee(c, c, -1, Nobody) && Shaped(c, k, ws, env')
  {
  }

  lemma SettingsFit(s: State, minimum: int, maximum: int, parallel: int, message: string, samples: map<Key, int>)
    requires Core(s) && AreSamples(s.cells, samples, minimum, maximum)
    ensures var cells := CellsAfter(s, minimum, maximum, samples);
      && (forall k <- s.cells :: Guarantee(s.cells[k], cells[k], -1, Nobody) && SameCounters(s.cells[k], cells[k]))
      && forall k <- s.cells :: Shaped(cells[k], k, s.workers, EnvAfter(s.env, minimum, maximum, parallel, message))
  {
    hide Core, Shaped, Guarantee, Rescheduled;
    var cells, env := CellsAfter(s, minimum, maximum, samples), EnvAfter(s.env, minimum, maximum, parallel, message);
    forall k <- s.cells
      ensures Guarantee(s.cells[k], cells[k], -1, Nobody) && SameCounters(s.cells[k], cells[k])
      ensures Shaped(cells[k], k, s.workers, env)
    {
      CellFacts(s, k);
      if minimum == s.env.keepaliveMin && maximum == s.env.keepaliveMax {
        UnchangedFits(s.cells[k], k, s.workers, s.env, env);
      } else {
        RescheduledFits(s.cells[k], k, s.workers, s.env, env, samples);
      }
    }
  }

  lemma AmbientStays(w: Worker, pool: Pool, env: Env, pool': Pool, env': Env)
    requires Ambient(w, pool, env) && AmbientGuarantee(pool, env, pool', env')
    ensures Ambient(w, pool', env')
  {
  }

  lemma SameTargetsRegistered(cells: map<Key, Cell>, cells': map<Key, Cell>, order: seq<Key>)
    requires Registered(cells, order) && cells'.Keys == cells.Keys
    requires forall k <- cells :: SameCounters(cells[k], cells'[k])
    ensures Registered(cells', order)
  {
    hide Normalize;
    assert forall k <- cells :: cells'[k].target == cells[k].target;
  }

  // Every target may change at once, if each change is one anyone may make.
  lemma SettingsKeep(s: State, cells: map<Key, Cell>, pool: Pool, env: Env)
    requires Core(s) && cells.Keys == s.cells.Keys
    requires forall k <- s.cells :: Guarantee(s.cells[k], cells[k], -1, Nobody) && SameCounters(s.cells[k], cells[k])
    requires forall k <- s.cells :: Shaped(cells[k], k, s.workers, env)
    requires pool.slots == s.pool.slots && pool.processes == s.pool.processes && pool.running == s.pool.running
    requires AmbientGuarantee(s.pool, s.env, pool, env)
    ensures Core(s.(cells := cells, pool := pool, env := env))
  {
    hide Registered, Distinct, Shaped, History, Fits, Guarantee, AmbientGuarantee;
    var t := s.(cells := cells, pool := pool, env := env);
    forall i | 0 <= i < |t.workers| ensures FitsIn(t, i) {
      assert FitsIn(s, i);
      var w := s.workers[i];
      if !w.pc.Done? {
        FitsStays(w, i, s.cells[w.key], cells[w.key], -1, Nobody);
        AmbientStays(w, s.pool, s.env, pool, env);
      }
    }
    SameTargetsRegistered(s.cells, cells, s.order);
    forall k <- cells ensures Tallied(cells[k], k, s.workers) {
      assert Tallied(s.cells[k], k, s.workers) && SameCounters(s.cells[k], cells[k]);
    }
  }

  lemma UpdateSettingsKeeps(
    s: State, minimum: int, maximum: int, parallel: int, message: string, samples: map<Key, int>)
    requires Core(s) && AreSamples(s.cells, samples, minimum, maximum)
    ensures Core(UpdateSettings(s, minimum, maximum, parallel, message, samples))
  {
    hide Core, Shaped, Guarantee, Rescheduled, AreSamples;
    CoreFormed(s);
    var cells, pool := CellsAfter(s, minimum, maximum, samples), PoolAfter(s.pool, s.env, parallel);
    var env := EnvAfter(s.env, minimum, maximum, parallel, message);
    SettingsFit(s, minimum, maximum, parallel, message, samples);
    SettingsKeep(s, cells, pool, env);
    BroadcastKeeps(s.(cells := cells, pool := pool, env := env));
  }

  // ---------------------------------------------------------------- observers

  lemma FeedKeeps(s: State, feed: Feed)
    requires Core(s) && WellFormed(feed.streams)
    ensures Core(s.(feed := feed))
  {
    hide Registered, Distinct, Shaped, Tallied, WorkerOK;
    var t := s.(feed := feed);
    forall i | 0 <= i < |t.workers| ensures FitsIn(t, i) { assert FitsIn(s, i); }
  }
}
