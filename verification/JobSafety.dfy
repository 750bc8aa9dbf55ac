/**
 What holds in every state of every run: single flight, mode exclusion, conservation, no lost wake-up, no deadlock.
 */
module JobSafety {
  import opened Text
  import opened Targets
  import opened Streams
  import opened JobState
  import opened JobSteps
  import opened JobRegistry
  import opened JobApi
  import opened JobInvariant
  import opened JobFrame
  import opened JobApiKeeps
  import opened JobRegistryKeeps
  import opened JobRuns

  // Every state a manager built from a well-formed configuration can get into is sound.
  lemma ManagerIsSound(targets: seq<Target>, env: Env)
    requires Bootable(targets)
    ensures IsSound(NewManager(targets, env))
  {
    NewIsSound(targets, env);
  }

  // A goroutine that has not returned works on a target the manager has, and agrees with it.
  lemma LiveFacts(s: Sound, i: nat)
    requires i < |s.workers| && !s.workers[i].pc.Done?
    ensures Live(s, i) && Around(s.cells[s.workers[i].key], s.workers[i], i, s.workers, s.pool, s.env)
  {
    assert FitsIn(s, i);
    hide Core, Observed;
    CoreAround(s, i);
  }

  lemma TargetFacts(s: Sound, k: Key)
    requires k in s.cells
    ensures Shaped(s.cells[k], k, s.workers, s.env) && Tallied(s.cells[k], k, s.workers)
  {
    hide Core, Observed;
    CellFacts(s, k);
  }

  // ---------------------------------------------------------------- single flight

  // A goroutine inside the runner owns its target with its own run number, and no other is inside for that target.
  lemma SingleFlight(s: Sound, i: nat, j: nat)
    requires i < |s.workers| && s.workers[i].pc.InRunner?
    requires j < |s.workers| && s.workers[j].pc.InRunner?
    ensures Live(s, i)
    ensures var a := s.cells[s.workers[i].key].arbiter;
      a.owner == s.workers[i].kind != Nobody && a.ownerRunID == s.workers[i].runID
    ensures s.workers[i].key == s.workers[j].key ==> i == j
  {
    LiveFacts(s, i);
    LiveFacts(s, j);
    hide Core, Observed, Shaped, QueueFits, KeepaliveFits, AdhocFits;
  }

  // Ownership has one live goroutine behind it, of that kind and with that run number.
  lemma OwnerIsAlive(s: Sound, k: Key)
    requires k in s.cells && s.cells[k].arbiter.owner != Nobody
    ensures IsRun(s.workers, Some(s.cells[k].holder), s.cells[k].arbiter.owner, k, s.cells[k].arbiter.ownerRunID)
  {
    TargetFacts(s, k);
    hide Core, Observed;
  }

  // The same settings; if it is owned, then by the same run.
  predicate SameOwner(c: Cell, d: Cell) {
    && d.target == c.target
    && (c.arbiter.owner != Nobody ==>
      && d.arbiter.owner == c.arbiter.owner && d.arbiter.ownerRunID == c.arbiter.ownerRunID && d.holder == c.holder)
  }

  // The target is still there under its key.
  predicate Continues(s: State, t: State, k: Key) {
    k in s.cells && k in t.cells && SameOwner(s.cells[k], t.cells[k])
  }

  lemma ContinuesOn(s: State, t: State, u: State, k: Key)
    requires Continues(s, t, k) && Continues(t, u, k)
    ensures Continues(s, u, k)
  {
  }

  lemma Unchanged(s: State, t: State, k: Key)
    requires k in s.cells && t.cells == s.cells
    ensures Continues(s, t, k)
  {
  }

  lemma StopContinues(s: State, k: Key, l: Key)
    requires Formed(s) && l in s.cells
    ensures Continues(s, StopQueue(s, k), l) && Continues(s, StopKeepalive(s, k), l) && Continues(s, StopAdhoc(s, k), l)
  {
  }

  lemma StopTargetContinues(s: State, k: Key, l: Key)
    requires Formed(s) && l in s.cells
    ensures Continues(s, StopTarget(s, k), l)
  {
    hide Continues, StopQueue, StopKeepalive, StopAdhoc;
    var s1 := StopQueue(s, k);
    var s2 := StopKeepalive(s1, k);
    StopContinues(s, k, l);
    StopContinues(s1, k, l);
    StopContinues(s2, k, l);
    ContinuesOn(s, s1, s2, l);
    ContinuesOn(s, s2, StopAdhoc(s2, k), l);
  }

  lemma {:induction false} StopAllContinues(s: State, keys: seq<Key>, k: Key)
    requires Formed(s) && k in s.cells
    ensures Continues(s, StopAll(s, keys), k)
  {
    hide Continues, StopTarget;
    if keys == [] {
      Unchanged(s, s, k);
    } else {
      var t := StopAll(s, keys[..|keys| - 1]);
      StopAllContinues(s, keys[..|keys| - 1], k);
      StopTargetContinues(t, keys[|keys| - 1], k);
      ContinuesOn(s, t, StopTarget(t, keys[|keys| - 1]), k);
    }
  }

  lemma PrepareContinues(s: State, k: Key, desired: Owner, l: Key)
    requires Formed(s) && l in s.cells
    ensures Continues(s, PrepareMode(s, k, desired).0, l)
  {
    hide SameOwner, StopQueue, StopKeepalive, StopAdhoc, Snapshot;
    if PrepareRefused(s, k, desired) { Unchanged(s, s, l); return; }
    var s1 := StopAdhoc(s, k);
    StopContinues(s, k, l);
    StopContinues(s1, k, l);
    if desired == Queue { ContinuesOn(s, s1, StopKeepalive(s1, k), l); }
    if desired == Keepalive { ContinuesOn(s, s1, StopQueue(s1, k), l); }
  }

  lemma StartContinues(s: State, step: Step, k: Key)
    requires Formed(s) && NoRepeats(s.order) && k in s.cells && Busy(s.cells[k]) && Possible(s, step)
    requires step.Join? || step.StartQueueRun? || step.StartKeepaliveRun? || step.Reserve?
    ensures Continues(s, Next(s, step), k)
  {
    hide Snapshot, WithSubscriber, Publish, NoRepeats;
  }

  lemma WorldContinues(s: State, step: Step, k: Key)
    requires Formed(s) && NoRepeats(s.order) && k in s.cells && Possible(s, step)
    requires || step.HangUp? || step.Shutdown? || step.Subscribe? || step.Close? || step.Take? || step.Tick?
             || step.CancelRoot?
    ensures Continues(s, Next(s, step), k)
  {
    hide Snapshot;
  }

  lemma SettingsContinue(s: State, step: Step, k: Key)
    requires Formed(s) && NoRepeats(s.order) && k in s.cells && step.Settings? && Possible(s, step)
    ensures Continues(s, Next(s, step), k)
  {
    hide Snapshot, Publish, NoRepeats;
  }

  lemma CreateContinues(s: State, target: Target, k: Key)
    requires Formed(s) && k in s.cells
    ensures Continues(s, CreateTarget(s, target), k)
  {
    hide Snapshot, Publish, SortTargets, Listed;
  }

  lemma DeleteContinues(s: State, id: int, k: Key)
    requires Formed(s) && NoRepeats(s.order) && k in s.cells && Busy(s.cells[k])
    ensures Continues(s, DeleteTarget(s, id), k)
  {
    hide Snapshot, Publish, Without, NoRepeats, Busy;
  }

  lemma UpdateContinues(s: State, id: int, target: Target, k: Key)
    requires Core(s) && Formed(s) && NoRepeats(s.order) && k in s.cells && Busy(s.cells[k])
    ensures Continues(s, UpdateTarget(s, id, target), k)
  {
    hide Core, Snapshot, Publish, SortTargets, Renamed, NoRepeats, Busy, Normalize, OrderRenamed, SameOwner;
    Unchanged(s, s, k);
    if UpdateOutcome(s, id, target.name) == Committed {
      var key, newKey := KeyOf(s.cells, s.order, id).value, Normalize(target.name);
      if newKey in s.cells { IDIsUnique(s, newKey, key); }
      assert CellsRenamed(s.cells, key, newKey, target)[k] == s.cells[k];
    }
  }

  lemma StopStepContinues(s: State, step: Step, k: Key)
    requires Formed(s) && NoRepeats(s.order) && k in s.cells && (step.StopKeys? || step.StopID?)
    ensures Continues(s, Next(s, step), k)
  {
    hide SameOwner, StopAll, StopTarget, Snapshot, Publish, NoRepeats;
    match step
    case StopKeys(keys) => StopAllContinues(s, keys, k);
    case StopID(id) =>
      var key := KeyOf(s.cells, s.order, id);
      if key.Some? { StopTargetContinues(s, key.value, k); }
      Unchanged(s, s, k);
    case _ =>
  }

  // A goroutine releases a target only if it is the one that took it.
  lemma WorkContinues(c: Cell, w: Worker, i: nat, ws: seq<Worker>, pool: Pool, env: Env, choice: Choice)
    requires Around(c, w, i, ws, pool, env) && Enabled(c, w, pool, env, choice) && i != c.holder
    ensures SameOwner(c, Work(c, w, i, pool, env, choice).cell)
  {
    hide Shaped, Ambient, History;
  }

  lemma GoContinues(s: State, i: nat, choice: Choice, k: Key)
    requires Core(s) && Formed(s) && NoRepeats(s.order) && Possible(s, Go(i, choice))
    requires k in s.cells && i != s.cells[k].holder
    ensures Continues(s, Next(s, Go(i, choice)), k)
  {
    hide Core, Around, Work, Snapshot, Publish, NoRepeats;
    CoreAround(s, i);
    if s.workers[i].key == k { WorkContinues(s.cells[k], s.workers[i], i, s.workers, s.pool, s.env, choice); }
  }

  // A target somebody works on is never removed, renamed or rebound, and it is released by the goroutine that took
  // it and by nothing else: not by a stop, not by another run of the same target.
  lemma BusyTargetContinues(s: Sound, step: Step, k: Key)
    requires k in s.cells && Busy(s.cells[k])
    requires step.Go? ==> step.i != s.cells[k].holder
    ensures Continues(s, Apply(s, step), k)
  {
    hide Core, Observed, Snapshot, SameOwner, Publish, Busy, Formed, NoRepeats, FreshID, AreSamples, Enabled,
         PrepareMode, CreateTarget, UpdateTarget, DeleteTarget;
    CoreListing(s);
    if !Possible(s, step) { Unchanged(s, s, k); return; }
    match step
    case Go(i, choice) => GoContinues(s, i, choice, k);
    case Prepare(key, desired) => PrepareContinues(s, key, desired, k);
    case StopKeys(_) => StopStepContinues(s, step, k);
    case StopID(_) => StopStepContinues(s, step, k);
    case Join(_, _) => StartContinues(s, step, k);
    case StartQueueRun(_, _) => StartContinues(s, step, k);
    case StartKeepaliveRun(_) => StartContinues(s, step, k);
    case Reserve(_) => StartContinues(s, step, k);
    case Settings(_, _, _, _, _) => SettingsContinue(s, step, k);
    case Create(target) => CreateContinues(s, target, k);
    case Update(id, target) => UpdateContinues(s, id, target, k);
    case Delete(id) => DeleteContinues(s, id, k);
    case _ => WorldContinues(s, step, k);
  }

  // ---------------------------------------------------------------- modes

  // Queue goroutines and keepalive goroutines never coexist on a target.
  lemma ModeExclusion(s: Sound, i: nat, j: nat)
    requires i < |s.workers| && !s.workers[i].pc.Done? && s.workers[i].kind == Queue
    requires j < |s.workers| && !s.workers[j].pc.Done? && s.workers[j].kind == Keepalive
    ensures s.workers[i].key != s.workers[j].key
  {
    LiveFacts(s, i);
    LiveFacts(s, j);
    TargetFacts(s, s.workers[i].key);
    hide Core, Observed, Shaped, WorkerOK;
  }

  // No keepalive ever waits for a queue run, and no queue run is current beside a keepalive.
  lemma ModesAreExclusive(s: Sound, k: Key)
    requires k in s.cells
    ensures s.cells[k].keepalive.state != WaitingQueue
    ensures s.cells[k].job.state == Running ==> s.cells[k].keepalive.state == Off && s.cells[k].keepalive.workers == 0
    ensures s.cells[k].keepalive.state != Off ==> s.cells[k].job.state != Running && s.cells[k].job.workers == 0
  {
    TargetFacts(s, k);
    CountersAreWitnessed(s.cells[k], k, s.workers, s.env);
    hide Core, Observed;
  }

  predicate Current(s: State, i: nat)
    requires Live(s, i)
  {
    var c, w := s.cells[s.workers[i].key], s.workers[i];
    (w.kind == Queue && QueueCurrent(c.job, w)) || (w.kind == Keepalive && KeepaliveCurrent(c.keepalive, w))
  }

  // A current run that has got a slot uses it: its next section starts a runner call. So a slot is handed back
  // unused only by a run that has been stopped, and by an ad-hoc request that was cancelled.
  lemma SlotIsNotWasted(s: Sound, i: nat)
    requires i < |s.workers| && s.workers[i].pc.Begin? && Live(s, i) && Current(s, i)
    ensures Possible(s, Go(i, Proceed)) && Apply(s, Go(i, Proceed)).workers[i].pc == InRunner
  {
    hide Core, Observed, Publish, Snapshot, History, Ambient, Shaped, NoRepeats, Formed;
    LiveFacts(s, i);
  }

  // ---------------------------------------------------------------- slots and processes

  lemma {:induction false} SumPointwise(ws: seq<Worker>, m: Metric, m': Metric)
    requires forall i :: 0 <= i < |ws| ==> Weight(m, ws[i]) <= Weight(m', ws[i])
    ensures Sum(ws, m) <= Sum(ws, m')
  {
    if ws != [] { SumPointwise(ws[..|ws| - 1], m, m'); }
  }

  // The pool's counters are exact: slotsInUse counts the goroutines that hold a slot, currentProcesses those inside
  // a counted call, runWG those that have not returned; and there are never more calls than slots.
  lemma PoolIsExact(s: Sound)
    ensures s.pool.slots == Sum(s.workers, Slots)
    ensures s.pool.processes == Sum(s.workers, Processes)
    ensures s.pool.running == Sum(s.workers, Goroutines)
    ensures 0 <= s.pool.processes <= s.pool.slots
  {
    forall i | 0 <= i < |s.workers| ensures Weight(Processes, s.workers[i]) <= Weight(Slots, s.workers[i]) {
      assert FitsIn(s, i);
    }
    hide Core, Observed;
    SumPointwise(s.workers, Processes, Slots);
  }

  // No `if counter > 0` guard ever finds its counter at zero.
  lemma GuardsNeverBite(s: Sound, i: nat)
    requires i < |s.workers| && !s.workers[i].pc.Done?
    ensures HoldsSlot(s.workers[i]) ==> s.pool.slots > 0
    ensures InProcess(s.workers[i]) ==> s.pool.processes > 0
    ensures Live(s, i)
    ensures s.workers[i].kind == Queue ==> s.cells[s.workers[i].key].job.workers > 0
    ensures s.workers[i].kind == Keepalive ==> s.cells[s.workers[i].key].keepalive.workers > 0
  {
    LiveFacts(s, i);
    hide Core, Observed, Shaped, WorkerOK;
  }

  // How far the slots in use exceed the limit.
  function Excess(s: State): nat {
    if s.pool.slots > s.env.maxParallel then s.pool.slots - s.env.maxParallel else 0
  }

  predicate Lowers(s: State, step: Step) {
    step.Settings? && Resizes(s.env, step.parallel) && step.parallel < s.env.maxParallel
  }

  lemma StopTargetLeavesPool(s: State, k: Key)
    requires Formed(s)
    ensures StopTarget(s, k).pool == s.pool && StopTarget(s, k).env == s.env
    ensures |StopTarget(s, k).workers| == |s.workers|
  {
    hide QueueStopped, KeepaliveStopped;
  }

  lemma {:induction false} StopAllLeavesPool(s: State, keys: seq<Key>)
    requires Formed(s)
    ensures StopAll(s, keys).pool == s.pool && StopAll(s, keys).env == s.env
    ensures |StopAll(s, keys).workers| == |s.workers|
  {
    hide StopTarget, Formed;
    if keys != [] {
      StopAllLeavesPool(s, keys[..|keys| - 1]);
      StopTargetLeavesPool(StopAll(s, keys[..|keys| - 1]), keys[|keys| - 1]);
    }
  }

  lemma WorkTakesSlots(c: Cell, w: Worker, i: nat, pool: Pool, env: Env, choice: Choice)
    requires Enabled(c, w, pool, env, choice)
    ensures var after := Work(c, w, i, pool, env, choice).pool;
      after.slots <= pool.slots || (pool.slots < env.maxParallel && after.slots == pool.slots + 1)
  {
  }

  // API callers never touch the slots, and only new settings touch the limit.
  lemma CallersLeaveSlots(s: State, step: Step)
    requires Formed(s) && NoRepeats(s.order) && Possible(s, step) && !step.Go?
    ensures Next(s, step).pool.slots == s.pool.slots
    ensures Next(s, step).env.maxParallel
      == if step.Settings? && Resizes(s.env, step.parallel) then step.parallel else s.env.maxParallel
  {
    if step.StopKeys? { StopAllLeavesPool(s, step.keys); }
    hide Publish, Snapshot, CellsAfter, NoRepeats, FreshID, AreSamples, KeyOf, SortTargets, StopAll, Renamed, Without,
         Normalize, Busy, Listed, WithSubscriber, WellFormed;
  }

  // A slot is taken only below the limit: the excess grows only when the limit is lowered.
  lemma ExcessGrowsOnlyByLowering(s: Sound, step: Step)
    requires !Lowers(s, step)
    ensures Excess(Apply(s, step)) <= Excess(s)
  {
    CoreListing(s);
    hide Core, Observed, Publish, Snapshot, NoRepeats, FreshID, AreSamples, Work;
    if Possible(s, step) {
      match step {
        case Go(i, choice) =>
          WorkTakesSlots(s.cells[s.workers[i].key], s.workers[i], i, s.pool, s.env, choice);
        case _ => hide Next; CallersLeaveSlots(s, step);
      }
    }
  }

  // With no lowering along the way, the limit is kept by every run that starts within it.
  lemma {:induction false} LimitIsKept(s: Sound, steps: seq<Step>)
    requires s.pool.slots <= s.env.maxParallel
    requires forall n | 0 <= n < |steps| :: !Lowers(Run(s, steps[..n]), steps[n])
    ensures Run(s, steps).pool.slots <= Run(s, steps).env.maxParallel
  {
    hide Core, Observed, Apply, Lowers;
    if steps != [] {
      var front := steps[..|steps| - 1];
      assert forall n | 0 <= n < |front| :: front[..n] == steps[..n];
      LimitIsKept(s, front);
      ExcessGrowsOnlyByLowering(Run(s, front), steps[|steps| - 1]);
    }
  }

  // ---------------------------------------------------------------- waiting

  // Goroutine i can take a step now.
  ghost predicate CanMove(s: State, i: nat) {
    Live(s, i) && exists choice :: Enabled(s.cells[s.workers[i].key], s.workers[i], s.pool, s.env, choice)
  }

  predicate Blocked(w: Worker) {
    w.pc.ClaimWait? || w.pc.SlotWait?
  }

  // No wake-up is lost: whoever still waits on the current channel has its condition against it now.
  lemma NoLostWakeUp(s: Sound, i: nat)
    requires i < |s.workers| && Live(s, i)
    ensures var w, c := s.workers[i], s.cells[s.workers[i].key];
      && (w.pc.ClaimWait? && !CanMove(s, i) ==> c.arbiter.owner != Nobody && Current(s, i))
      && (w.pc.SlotWait? && !CanMove(s, i) ==> s.pool.slots >= s.env.maxParallel)
  {
    LiveFacts(s, i);
    var w, c := s.workers[i], s.cells[s.workers[i].key];
    hide Core, Observed, Shaped, History;
    assert Enabled(c, w, s.pool, s.env, Wake) ==> CanMove(s, i);
  }

  // Whoever is neither blocked nor asleep can take a step.
  lemma OthersCanMove(s: Sound, i: nat)
    requires i < |s.workers| && Live(s, i) && !Blocked(s.workers[i]) && !s.workers[i].pc.SleepWait?
    ensures CanMove(s, i)
  {
    hide Core, Observed, IsSound, Formed;
    var w, c := s.workers[i], s.cells[s.workers[i].key];
    var choice :=
      if w.pc.InRunner? then Return(Result(true, ""))
      else if w.pc.Mark? && w.kind == Keepalive then Sampled(s.env.keepaliveMin)
      else Proceed;
    assert Enabled(c, w, s.pool, s.env, choice);
  }

  // No slot holder ever waits, for an arbiter or anything else.
  lemma SlotHoldersMove(s: Sound, i: nat)
    requires i < |s.workers| && HoldsSlot(s.workers[i])
    ensures CanMove(s, i)
  {
    LiveFacts(s, i);
    OthersCanMove(s, i);
  }

  // A goroutine that holds a slot and can take a step.
  ghost predicate Progresses(s: State, j: nat) {
    j < |s.workers| && HoldsSlot(s.workers[j]) && CanMove(s, j)
  }

  // Whoever waits for its target waits for the goroutine that has taken it, which can move or waits for a slot.
  lemma HolderMoves(s: Sound, i: nat)
    requires i < |s.workers| && s.workers[i].pc.ClaimWait? && !CanMove(s, i)
    ensures Live(s, i)
    ensures var h := s.cells[s.workers[i].key].holder;
      Live(s, h) && s.workers[h].key == s.workers[i].key && (CanMove(s, h) || s.workers[h].pc.SlotWait?)
  {
    LiveFacts(s, i);
    var k := s.workers[i].key;
    var h := s.cells[k].holder;
    TargetFacts(s, k);
    hide Core, Observed, CanMove, Around;
    NoLostWakeUp(s, i);
    LiveFacts(s, h);
    if !Blocked(s.workers[h]) { OthersCanMove(s, h); }
  }

  // Whoever waits for a slot waits for one that is held, by a goroutine that can move.
  lemma SlotHolderMoves(s: Sound, i: nat)
    requires s.env.maxParallel >= 1
    requires i < |s.workers| && s.workers[i].pc.SlotWait? && !CanMove(s, i)
    ensures exists j :: Progresses(s, j)
  {
    LiveFacts(s, i);
    hide Core, Observed, CanMove, Around;
    NoLostWakeUp(s, i);
    PoolIsExact(s);
    var j := SumWitness(s.workers, Slots);
    SlotHoldersMove(s, j);
    assert Progresses(s, j);
  }

  // No deadlock: as long as the limit admits one call, what a blocked goroutine waits for is on its way. The goroutine
  // that has its target can move, or some slot holder can.
  lemma NoDeadlock(s: Sound, i: nat)
    requires s.env.maxParallel >= 1
    requires i < |s.workers| && Blocked(s.workers[i])
    ensures Live(s, i)
    ensures
      CanMove(s, i) ||
      if s.workers[i].pc.SlotWait? then exists j :: Progresses(s, j)
      else
        var h := s.cells[s.workers[i].key].holder;
        && Live(s, h) && s.workers[h].key == s.workers[i].key
        && (CanMove(s, h) || (s.workers[h].pc.SlotWait? && exists j :: Progresses(s, j)))
  {
    LiveFacts(s, i);
    hide Core, Observed, CanMove, Around, Progresses;
    if !CanMove(s, i) {
      if s.workers[i].pc.SlotWait? { SlotHolderMoves(s, i); }
      else {
        HolderMoves(s, i);
        var h := s.cells[s.workers[i].key].holder;
        if !CanMove(s, h) { SlotHolderMoves(s, h); }
      }
    }
  }

  // ---------------------------------------------------------------- the keepalive schedule

  // Whenever a keepalive waits for its next request, that lies in the configured window, counted from when it was
  // last sampled, under the settings in force now.
  lemma ScheduleIsInWindow(s: Sound, k: Key)
    requires k in s.cells && s.cells[k].keepalive.state == WaitingNext
    requires s.env.keepaliveMin <= s.env.keepaliveMax
    ensures s.cells[k].keepalive.nextRequest.Some?
    ensures s.cells[k].sampled + s.env.keepaliveMin
      <= s.cells[k].keepalive.nextRequest.value <= s.cells[k].sampled + s.env.keepaliveMax
  {
    TargetFacts(s, k);
    hide Core, Observed;
  }

  // A sleeping keepalive's timer is set for the request that is due, or its schedule channel is already closed.
  lemma TimerIsCurrent(s: Sound, i: nat)
    requires i < |s.workers| && s.workers[i].pc.SleepWait? && Live(s, i) && Current(s, i)
    ensures var p := s.cells[s.workers[i].key].keepalive;
      && p.state == WaitingNext
      && (p.nextRequest == Some(s.workers[i].pc.at) || Possible(s, Go(i, Wake)))
  {
    LiveFacts(s, i);
    hide Core, Observed, Shaped, History, Ambient;
  }

  // No queue ever waits for a retry timer: a failed attempt competes for the target again at once.
  lemma NoRetryTimer(s: Sound, k: Key)
    requires k in s.cells
    ensures s.cells[k].job.nextAttempt == None
  {
    hide Core, Observed;
    TargetFacts(s, k);
  }

  // ---------------------------------------------------------------- busy, idle, quiescent

  // A target is busy exactly as long as some goroutine that has not returned works on it.
  lemma BusyMeansWorkedOn(s: Sound, k: Key)
    requires k in s.cells
    ensures Busy(s.cells[k]) <==> exists i :: 0 <= i < |s.workers| && !s.workers[i].pc.Done? && s.workers[i].key == k
  {
    BusyIsExact(s, k);
  }

  // A running queue has exactly one live goroutine with its run number; so has a keepalive that is not off.
  lemma RunHasOneWorker(s: Sound, k: Key, i: nat, j: nat)
    requires k in s.cells && i < |s.workers| && j < |s.workers|
    requires s.workers[i].key == s.workers[j].key == k && s.workers[i].kind == s.workers[j].kind
    requires Live(s, i) && Live(s, j) && Current(s, i) && Current(s, j)
    ensures i == j
  {
    LiveFacts(s, i);
    LiveFacts(s, j);
    hide Core, Observed, Shaped, Ambient, History;
  }

  lemma RunHasAWorker(s: Sound, k: Key)
    requires k in s.cells
    ensures s.cells[k].job.state == Running ==> IsRun(s.workers, s.cells[k].job.cancel, Queue, k, s.cells[k].job.runID)
    ensures s.cells[k].keepalive.state != Off ==>
      IsRun(s.workers, s.cells[k].keepalive.cancel, Keepalive, k, s.cells[k].keepalive.runID)
  {
    TargetFacts(s, k);
    hide Core, Observed;
  }

  // What update and delete persist, they persist while nobody works on the target.
  lemma CommitsAreQuiescent(s: Sound, id: int, name: string)
    ensures Formed(s)
    ensures UpdateOutcome(s, id, name) == Committed || DeleteOutcome(s, id) == Committed ==>
      && KeyOf(s.cells, s.order, id).Some?
      && NoneWorksOn(s.workers, KeyOf(s.cells, s.order, id).value)
  {
    CoreFormed(s);
    var k := KeyOf(s.cells, s.order, id);
    if k.Some? && !Busy(s.cells[k.value]) { NotBusyIsIdle(s, k.value); }
    hide Core, Observed;
  }

  // Every goroutine has returned: the pool is empty, every arbiter free, no queue running and every keepalive off.
  ghost predicate Quiescent(s: State) {
    && s.pool.slots == 0 && s.pool.processes == 0
    && forall k <- s.cells ::
      && s.cells[k].arbiter.owner == Nobody && s.cells[k].job.state != Running && s.cells[k].keepalive.state == Off
      && s.cells[k].job.workers == 0 && s.cells[k].keepalive.workers == 0
  }

  lemma WaitMeansQuiescent(s: Sound)
    requires s.pool.running == 0
    ensures Quiescent(s)
  {
    PoolIsExact(s);
    forall i | 0 <= i < |s.workers| ensures s.workers[i].pc.Done? {
      SumAtLeast(s.workers, i, Goroutines);
    }
    forall m | m == Slots || m == Processes ensures Sum(s.workers, m) == 0 {
      if Sum(s.workers, m) > 0 { var i := SumWitness(s.workers, m); }
    }
    forall k <- s.cells ensures Vacant(s.cells[k]) {
      BusyMeansWorkedOn(s, k);
      NotBusyIsIdle(s, k);
    }
    hide Core, Observed;
  }
}
