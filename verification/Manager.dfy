/**
 The job manager itself: its fields, and one method for every section of code it runs under its lock. Each method is
 proved to take the manager from a state of the protocol to the state the protocol prescribes; `ManagerRuns` puts them
 together to whole runs, so that everything proved about those holds of the manager.
 */
module JobManager {
  import opened Text
  import opened Targets
  import opened Streams
  import opened JobState
  import opened JobSteps
  import opened JobRegistry
  import opened JobApi
  import opened JobRuns
  import opened JobTables

  class Manager {
    var keepaliveMin: int
    var keepaliveMax: int
    var maxParallel: int
    var successMessage: string

    var targets: map<Key, Target>
    var order: seq<Key>
    var jobs: map<Key, Job>
    var keepalives: map<Key, KeepaliveJob>
    var arbiters: map<Key, Arbiter>
    var currentProcesses: int
    var slotsInUse: int
    var nextEventID: nat
    var nextAdhocRunID: nat
    var channels: seq<Stream<Event>>  // every channel handed out; observer ids are its indices
    var observers: set<nat>           // those still registered
    var runWG: int
    var shuttingDown: bool
    var parallelChanged: nat

    var goroutines: seq<Worker>       // what the goroutines have on their stacks, and their contexts
    var now: int                      // the clock
    var rootDone: bool                // the root context is cancelled

    ghost predicate Counters(pool: Pool)
      reads `slotsInUse, `currentProcesses, `parallelChanged, `runWG
    {
      && slotsInUse == pool.slots && currentProcesses == pool.processes
      && parallelChanged == pool.changed && runWG == pool.running
    }

    ghost predicate Settings(env: Env)
      reads `maxParallel, `keepaliveMin, `keepaliveMax, `nextAdhocRunID, `shuttingDown, `now, `rootDone, `successMessage
    {
      && maxParallel == env.maxParallel && keepaliveMin == env.keepaliveMin && keepaliveMax == env.keepaliveMax
      && nextAdhocRunID == env.nextAdhocRunID && shuttingDown == env.shuttingDown
      && now == env.now && rootDone == env.rootDone && successMessage == env.successMessage
    }

    ghost predicate OpenOnes(streams: seq<Stream<Event>>)
      reads `observers
    {
      forall id :: id in observers <==> 0 <= id < |streams| && streams[id].open
    }

    ghost predicate Observing(feed: Feed)
      reads `channels, `nextEventID, `observers
    {
      channels == feed.streams && nextEventID == |feed.log| && OpenOnes(channels)
    }

    // The four maps hold what the protocol keeps together per target.
    ghost predicate Tables(cells: map<Key, Cell>)
      reads `targets, `jobs, `keepalives, `arbiters
    {
      targets == Rows(cells) && jobs == Jobs(cells) && keepalives == Keepalives(cells) && arbiters == Arbiters(cells)
    }

    // Every field has the value the protocol's state s has for it.
    ghost predicate Shows(s: State)
      reads this
    {
      && order == s.order && goroutines == s.workers
      && Tables(s.cells) && Counters(s.pool) && Settings(s.env) && Observing(s.feed)
    }

    // ---------------------------------------------------------------- reading and publishing

    // targetBusyLocked
    method TargetBusy(key: Key, ghost cells: map<Key, Cell>) returns (busy: bool)
      requires Tables(cells) && key in cells
      ensures busy == Busy(cells[key])
    {
      busy := jobs[key].state == Running || jobs[key].workers > 0
           || keepalives[key].state != Off || keepalives[key].workers > 0
           || arbiters[key].owner != Nobody;
    }

    // queueSnapshotLocked and keepaliveSnapshotLocked
    method TargetView(key: Key, ghost cells: map<Key, Cell>) returns (view: TargetSnapshot)
      requires Tables(cells) && key in cells
      ensures view == View(cells[key])
      ensures view.busy == Busy(cells[key]) && view.adhocRunning == (arbiters[key].owner == Adhoc)
      ensures ShowsTarget(view, targets[key]) && ShowsJob(view, jobs[key]) && ShowsKeepalive(view, keepalives[key])
    {
      var target, queue, keepalive := targets[key], jobs[key], keepalives[key];
      var busy := TargetBusy(key, cells);
      view := TargetSnapshot(
        target.id, target.sortOrder, target.name, target.model, API_HOST(target.baseURL), busy,
        arbiters[key].owner == Adhoc,
        queue.state, queue.attempts, queue.startedAt, queue.lastAttempt, queue.nextAttempt, queue.finishedAt,
        queue.lastError,
        keepalive.state, keepalive.requests, keepalive.startedAt, keepalive.lastRequest, keepalive.lastSuccess,
        keepalive.lastFailure, keepalive.nextRequest, keepalive.stoppedAt, keepalive.lastError);
    }

    // snapshotLocked
    method TakeSnapshot(ghost s: State) returns (snapshot: ManagerSnapshot)
      requires Shows(s) && Formed(s)
      ensures snapshot == Snapshot(s)
    {
      var views: seq<TargetSnapshot> := [];
      for n := 0 to |order|
        invariant |views| == n
        invariant forall m :: 0 <= m < n ==> views[m] == View(s.cells[order[m]])
      {
        var view := TargetView(order[n], s.cells);
        views := views + [view];
      }
      snapshot := ManagerSnapshot(views, currentProcesses, maxParallel);
      assert views == Snapshot(s).targets;
    }

    // publishLocked: the observers are offered the event in no particular order
    method PublishEvent(event: Event)
      requires WellFormed(channels) && OpenOnes(channels)
      modifies `observers, `channels
      ensures channels == Publish(old(channels), event) && OpenOnes(channels)
    {
      var rest := observers;
      while rest != {}
        invariant rest <= old(observers)
        invariant |channels| == |old(channels)|
        invariant forall id :: 0 <= id < |channels| ==>
          channels[id] == if id in rest then old(channels)[id] else Offer(old(channels)[id], event)
        invariant OpenOnes(channels)
      {
        var id :| id in rest;
        rest := rest - {id};
        var channel := channels[id];
        if |channel.sent| - channel.received < channel.capacity {
          channels := channels[id := channel.(sent := channel.sent + [event])];
        } else {
          observers := observers - {id};
          channels := channels[id := channel.(open := false)];
        }
      }
    }

    // broadcastStateLocked
    method BroadcastState(ghost s: State)
      requires Shows(s) && Formed(s)
      modifies `nextEventID, `observers, `channels
      ensures Shows(Broadcast(s))
    {
      nextEventID := nextEventID + 1;
      var snapshot := TakeSnapshot(s.(feed := Feed(s.feed.streams, s.feed.log + [Event(0, Snapshot(s))])));
      PublishEvent(Event(nextEventID, snapshot));
    }

    // ---------------------------------------------------------------- sections of the goroutines

    // Goroutine i holds the lock and runs its next section.
    ghost predicate Enters(s: State, i: nat, choice: Choice)
      reads this
    {
      Shows(s) && Formed(s) && CanRun(s, i, choice)
    }

    // Goroutine i's program counter moves on.
    method Goto(i: nat, pc: PC)
      requires i < |goroutines|
      modifies `goroutines
      ensures goroutines == old(goroutines)[i := old(goroutines)[i].(pc := pc)]
    {
      goroutines := goroutines[i := goroutines[i].(pc := pc)];
    }

    // signalTargetLocked
    method SignalTarget(key: Key)
      requires key in arbiters
      modifies `arbiters
      ensures arbiters == old(arbiters)[key := Signal(old(arbiters)[key])]
    {
      arbiters := arbiters[key := arbiters[key].(changed := arbiters[key].changed + 1)];
    }

    // releaseTargetLocked
    method ReleaseTarget(key: Key, owner: Owner, runID: nat)
      requires key in arbiters
      modifies `arbiters
      ensures arbiters == old(arbiters)[key := Release(old(arbiters)[key], owner, runID)]
    {
      var arbiter := arbiters[key];
      if arbiter.owner != owner || arbiter.ownerRunID != runID { return; }
      arbiters := arbiters[key := arbiter.(owner := Nobody, ownerRunID := 0, cancel := None)];
      SignalTarget(key);
    }

    // acquire, one round of its loop
    method Acquire(i: nat, ghost s: State)
      requires Enters(s, i, Proceed) && s.workers[i].pc.Slot?
      modifies `slotsInUse, `goroutines
      ensures Shows(Stepped(s, i, Proceed))
    {
      hide Observing, Formed, Stepped, Enabled, Rows, Jobs, Keepalives, Arbiters;
      var key := goroutines[i].key;
      ghost var e := AcquireSlot(s.cells[key], s.workers[i], s.pool, s.env);
      Plan(s, i, Proceed, e);
      if slotsInUse < maxParallel {
        slotsInUse := slotsInUse + 1;
        Goto(i, Begin);
      } else {
        Goto(i, SlotWait(parallelChanged));
      }
    }

    // releaseSlot
    method FreeSlot(i: nat, ghost s: State)
      requires Enters(s, i, Proceed) && s.workers[i].pc.DropSlot?
      modifies `slotsInUse, `parallelChanged, `goroutines
      ensures Shows(Stepped(s, i, Proceed))
    {
      hide Observing, Formed, Stepped, Enabled, Rows, Jobs, Keepalives, Arbiters;
      var key := goroutines[i].key;
      ghost var e := ReleaseSlot(s.cells[key], s.workers[i], s.pool);
      Plan(s, i, Proceed, e);
      if slotsInUse > 0 { slotsInUse := slotsInUse - 1; }
      parallelChanged := parallelChanged + 1;
      Goto(i, if goroutines[i].kind == Queue then DropTarget else Cancel);
    }

    // finishProcess's writes to the counters
    method GiveProcessBack()
      modifies `currentProcesses, `slotsInUse, `parallelChanged
      ensures currentProcesses == DecrementIfPositive(old(currentProcesses))
      ensures slotsInUse == DecrementIfPositive(old(slotsInUse)) && parallelChanged == old(parallelChanged) + 1
    {
      if currentProcesses > 0 { currentProcesses := currentProcesses - 1; }
      if slotsInUse > 0 { slotsInUse := slotsInUse - 1; }
      parallelChanged := parallelChanged + 1;
    }

    method FinishProcess(i: nat, ghost s: State)
      requires Enters(s, i, Proceed) && s.workers[i].pc.Finish?
      modifies this
      ensures Shows(Stepped(s, i, Proceed))
    {
      hide Observing, Snapshot, Publish, Formed, Broadcast, Stepped, Enabled, Rows, Jobs, Keepalives, Arbiters,
           DecrementIfPositive;
      var key := goroutines[i].key;
      ghost var e := JobSteps.FinishProcess(s.cells[key], s.workers[i], s.pool);
      Plan(s, i, Proceed, e);
      GiveProcessBack();
      Goto(i, Returned(goroutines[i].pc.result));
      assert Shows(Written(s, i, e));
      hide Shows, Written;
      BroadcastState(Written(s, i, e));
    }

    // acquireQueueTarget, one round of its loop
    method AcquireQueueTarget(i: nat, ghost s: State)
      requires Enters(s, i, Proceed) && s.workers[i].pc.Claim? && s.workers[i].kind == Queue
      modifies `arbiters, `goroutines
      ensures Shows(Stepped(s, i, Proceed))
    {
      hide Observing, Formed, Stepped, Enabled, Rows, Jobs, Keepalives, Arbiters;
      var key, runID := goroutines[i].key, goroutines[i].runID;
      ghost var e := ClaimQueue(s.cells[key], s.workers[i], i, s.pool);
      Plan(s, i, Proceed, e);
      var current, arbiter := jobs[key], arbiters[key];
      if current.runID != runID || current.state != Running {
        Goto(i, Cancel);
      } else if arbiter.owner == Nobody {
        arbiters := arbiters[key := arbiter.(owner := Queue, ownerRunID := runID)];
        Goto(i, Slot);
      } else {
        Goto(i, ClaimWait(arbiter.changed));
      }
    }

    // beginAttempt's writes to the job and the process counter
    method CountAttempt(key: Key) returns (attempt: nat)
      requires key in jobs
      modifies `jobs, `currentProcesses
      ensures attempt == old(jobs)[key].attempts + 1 && currentProcesses == old(currentProcesses) + 1
      ensures jobs == old(jobs)[key := old(jobs)[key].(
        attempts := attempt, lastAttempt := Some(now), nextAttempt := None)]
    {
      var current := jobs[key];
      current := current.(attempts := current.attempts + 1, lastAttempt := Some(now), nextAttempt := None);
      jobs := jobs[key := current];
      currentProcesses := currentProcesses + 1;
      attempt := current.attempts;
    }

    method BeginAttempt(i: nat, ghost s: State)
      requires Enters(s, i, Proceed) && s.workers[i].pc.Begin? && s.workers[i].kind == Queue
      modifies this
      ensures Shows(Stepped(s, i, Proceed))
    {
      hide Observing, Snapshot, Publish, Formed, Broadcast, Stepped, Enabled, Rows, Jobs, Keepalives, Arbiters;
      var key, runID := goroutines[i].key, goroutines[i].runID;
      ghost var e := JobSteps.BeginAttempt(s.cells[key], s.workers[i], s.pool, s.env);
      Plan(s, i, Proceed, e);
      var current, arbiter := jobs[key], arbiters[key];
      if current.runID != runID || current.state != Running || arbiter.owner != Queue || arbiter.ownerRunID != runID {
        Goto(i, DropSlot);
        return;
      }
      var attempt := CountAttempt(key);
      goroutines := goroutines[i := goroutines[i].(pc := InRunner, calls := goroutines[i].calls + [attempt])];
      assert Shows(Written(s, i, e));
      hide Shows, Written;
      BroadcastState(Written(s, i, e));
    }

    // releaseTarget, after a refused attempt
    method GiveTargetBack(i: nat, ghost s: State)
      requires Enters(s, i, Proceed) && s.workers[i].pc.DropTarget?
      modifies `arbiters, `goroutines
      ensures Shows(Stepped(s, i, Proceed))
    {
      hide Release, Signal, Observing, Formed, Stepped, Enabled, Rows, Jobs, Keepalives, Arbiters;
      var key := goroutines[i].key;
      ghost var e := AbandonTarget(s.cells[key], s.workers[i], s.pool);
      Plan(s, i, Proceed, e);
      ReleaseTarget(key, goroutines[i].kind, goroutines[i].runID);
      Goto(i, Exit(false, false));
    }

    // The loop over the job's subscribers
    method ListSubscribers(subscribers: Subscribers) returns (list: seq<Subscriber>)
      ensures ListsAll(list, subscribers)
    {
      list := [];
      ghost var keys: seq<string> := [];
      var rest := subscribers.Keys;
      while rest != {}
        invariant rest <= subscribers.Keys && |keys| == |list| && NoRepeats(keys)
        invariant forall k <- subscribers :: k in rest <==> k !in keys
        invariant forall n :: 0 <= n < |keys| ==> keys[n] in subscribers && list[n] == subscribers[keys[n]]
      {
        var key :| key in rest;
        rest := rest - {key};
        list, keys := list + [subscribers[key]], keys + [key];
      }
    }

    // markSuccess's writes to the job, and the subscribers it takes out; the run's context is cancelled
    method CompleteJob(key: Key) returns (subscribers: Subscribers)
      requires key in jobs
      modifies `jobs, `goroutines
      ensures subscribers == old(jobs)[key].subscribers
      ensures goroutines == CancelContext(old(goroutines), old(jobs)[key].cancel)
      ensures jobs == old(jobs)[key := old(jobs)[key].(
        state := Succeeded, finishedAt := Some(now), nextAttempt := None, lastError := "", cancel := None,
        subscribers := map[])]
    {
      var current := jobs[key];
      current := current.(state := Succeeded, finishedAt := Some(now), nextAttempt := None, lastError := "");
      if current.cancel.Some? {
        goroutines := CancelContext(goroutines, current.cancel);
        current := current.(cancel := None);
      }
      subscribers := current.subscribers;
      jobs := jobs[key := current.(subscribers := map[])];
    }

    // markSuccess when the run is the current one
    method SucceedQueueRun(i: nat, ghost s: State)
      requires Enters(s, i, Proceed) && s.workers[i].pc.Returned? && s.workers[i].pc.result.success
      requires s.workers[i].kind == Queue && OwnCancel(s, i)
      requires QueueCurrent(s.cells[s.workers[i].key].job, s.workers[i])
      modifies this
      ensures Shows(Stepped(s, i, Proceed))
    {
      hide QueueCurrent, Release, Observing, Counters, Formed, Broadcast, Stepped, Enabled, Rows, Jobs, Keepalives,
           Arbiters;
      var key, runID := goroutines[i].key, goroutines[i].runID;
      ghost var e := JobSteps.MarkSuccess(s.cells[key], s.workers[i], s.pool, s.env);
      Plan(s, i, Proceed, e);
      var subscribers := CompleteJob(key);
      ReleaseTarget(key, Queue, runID);
      goroutines := goroutines[i := goroutines[i].(
        pc := Exit(false, false), handed := goroutines[i].handed + [subscribers], verdict := Delivered)];
      assert Shows(Written(s, i, e));
      hide Shows, Written;
      BroadcastState(Written(s, i, e));
    }

    // markSuccess; `subscribers` are whom to notify, in any order, and `elapsed` is how long the run took
    method MarkSuccess(i: nat, ghost s: State) returns (subscribers: seq<Subscriber>, elapsed: int, ok: bool)
      requires Enters(s, i, Proceed) && s.workers[i].pc.Returned? && s.workers[i].pc.result.success
      requires s.workers[i].kind == Queue && OwnCancel(s, i)
      modifies this
      ensures Shows(Stepped(s, i, Proceed))
      ensures ok == QueueCurrent(s.cells[s.workers[i].key].job, s.workers[i])
      ensures ok ==> ListsAll(subscribers, s.cells[s.workers[i].key].job.subscribers)
      ensures ok ==>
        forall start :: s.cells[s.workers[i].key].job.startedAt == Some(start) ==> elapsed == s.env.now - start
      ensures !ok ==> subscribers == [] && elapsed == 0
    {
      hide Release, Observing, Counters, Formed, ListsAll, Stepped, Enabled, Rows, Jobs, Keepalives, Arbiters;
      var key, runID := goroutines[i].key, goroutines[i].runID;
      Plan(s, i, Proceed, JobSteps.MarkSuccess(s.cells[key], s.workers[i], s.pool, s.env));
      var current := jobs[key];
      if current.runID != runID || current.state != Running {
        ReleaseTarget(key, Queue, runID);
        Goto(i, Exit(false, false));
        return [], 0, false;
      }
      subscribers := ListSubscribers(current.subscribers);
      elapsed := if current.startedAt.Some? then now - current.startedAt.value else now;
      SucceedQueueRun(i, s);
      return subscribers, elapsed, true;
    }

    // markFailure's writes to the job
    method RecordFailure(key: Key, error: string)
      requires key in jobs
      modifies `jobs
      ensures jobs == old(jobs)[key := old(jobs)[key].(lastError := error, nextAttempt := None)]
    {
      jobs := jobs[key := jobs[key].(lastError := error, nextAttempt := None)];
    }

    method MarkFailure(i: nat, ghost s: State)
      requires Enters(s, i, Proceed) && s.workers[i].pc.Mark? && s.workers[i].kind == Queue
      modifies this
      ensures Shows(Stepped(s, i, Proceed))
    {
      hide Counters, Release, Signal, Observing, Snapshot, Publish, Formed, Broadcast, Stepped, Enabled, Rows, Jobs,
           Keepalives, Arbiters;
      var key, runID := goroutines[i].key, goroutines[i].runID;
      ghost var e := JobSteps.MarkFailure(s.cells[key], s.workers[i], s.pool);
      Plan(s, i, Proceed, e);
      var valid := jobs[key].runID == runID && jobs[key].state == Running;
      if valid { RecordFailure(key, goroutines[i].pc.result.error); }
      ReleaseTarget(key, Queue, runID);
      Goto(i, if valid then Claim else Exit(false, false));
      assert Shows(Written(s, i, e));
      hide Shows, Written;
      if valid { BroadcastState(Written(s, i, e)); }
    }

    // markQueueCancelled when the run is the current one
    method CancelQueueRun(i: nat, ghost s: State)
      requires Enters(s, i, Proceed) && s.workers[i].pc.Cancel? && s.workers[i].kind == Queue
      requires QueueCurrent(s.cells[s.workers[i].key].job, s.workers[i])
      modifies this
      ensures Shows(Stepped(s, i, Proceed))
    {
      hide QueueCurrent, Release, Signal, Observing, Counters, Formed, Broadcast, Stepped, Enabled, Rows, Jobs,
           Keepalives, Arbiters;
      var key, runID := goroutines[i].key, goroutines[i].runID;
      ghost var e := JobSteps.MarkQueueCancelled(s.cells[key], s.workers[i], s.pool, s.env);
      Plan(s, i, Proceed, e);
      LaterStands(arbiters, key, Release(arbiters[key], Queue, runID), Signal(Release(arbiters[key], Queue, runID)));
      ReleaseTarget(key, Queue, runID);
      jobs := jobs[key := jobs[key].(
        state := Stopped, finishedAt := Some(now), nextAttempt := None, cancel := None, subscribers := map[])];
      SignalTarget(key);
      goroutines := goroutines[i := goroutines[i].(pc := Exit(false, false), verdict := Abandoned)];
      assert Shows(Written(s, i, e));
      hide Shows, Written;
      BroadcastState(Written(s, i, e));
    }

    method MarkQueueCancelled(i: nat, ghost s: State)
      requires Enters(s, i, Proceed) && s.workers[i].pc.Cancel? && s.workers[i].kind == Queue
      modifies this
      ensures Shows(Stepped(s, i, Proceed))
    {
      hide Release, Observing, Counters, Settings, Formed, Stepped, Enabled, Rows, Jobs, Keepalives, Arbiters;
      var key, runID := goroutines[i].key, goroutines[i].runID;
      Plan(s, i, Proceed, JobSteps.MarkQueueCancelled(s.cells[key], s.workers[i], s.pool, s.env));
      var current := jobs[key];
      if current.runID == runID && current.state == Running {
        CancelQueueRun(i, s);
        return;
      }
      ReleaseTarget(key, Queue, runID);
      Goto(i, Exit(false, false));
    }

    // beginKeepaliveRequest up to acquire
    method BeginKeepaliveRequest(i: nat, ghost s: State)
      requires Enters(s, i, Proceed) && s.workers[i].pc.Claim? && s.workers[i].kind == Keepalive
      modifies this
      ensures Shows(Stepped(s, i, Proceed))
    {
      hide Observing, Snapshot, Publish, Formed, Broadcast, Stepped, Enabled, Rows, Jobs, Keepalives, Arbiters;
      var key, runID := goroutines[i].key, goroutines[i].runID;
      ghost var e := ClaimKeepalive(s.cells[key], s.workers[i], s.pool);
      Plan(s, i, Proceed, e);
      var current, queue, arbiter := keepalives[key], jobs[key], arbiters[key];
      if current.runID != runID || current.state == Off {
        Goto(i, Cancel);
        return;
      }
      var previousState := current.state;
      if queue.state == Running || arbiter.owner != Nobody {
        current := current.(
          state := if queue.state == Running || arbiter.owner == Queue then WaitingQueue else Requesting);
        Goto(i, ClaimWait(arbiter.changed));
      } else {
        current := current.(state := Requesting);
        Goto(i, Slot);
      }
      keepalives := keepalives[key := current];
      assert Shows(Written(s, i, e));
      hide Shows, Written;
      if current.state != previousState { BroadcastState(Written(s, i, e)); }
    }

    // beginKeepaliveRequest after acquire, when the target turns out to be taken
    method RetreatKeepaliveRequest(i: nat, ghost s: State)
      requires Enters(s, i, Proceed) && s.workers[i].pc.Begin? && s.workers[i].kind == Keepalive
      requires KeepaliveCurrent(s.cells[s.workers[i].key].keepalive, s.workers[i])
      requires KeepaliveBlocked(s.cells[s.workers[i].key])
      modifies this
      ensures Shows(Stepped(s, i, Proceed))
    {
      hide KeepaliveCurrent, KeepaliveBlocked, Observing, Snapshot, Publish, Formed, Broadcast, Stepped, Enabled,
           Rows, Jobs, Keepalives, Arbiters, Counters;
      var key := goroutines[i].key;
      ghost var e := BeginKeepalive(s.cells[key], s.workers[i], i, s.pool, s.env);
      Plan(s, i, Proceed, e);
      var current, queue, arbiter := keepalives[key], jobs[key], arbiters[key];
      var previousState := current.state;
      if queue.state == Running || arbiter.owner == Queue { current := current.(state := WaitingQueue); }
      keepalives := keepalives[key := current];
      Goto(i, DropSlotWait(arbiter.changed));
      assert Shows(Written(s, i, e));
      hide Shows, Written;
      if current.state != previousState { BroadcastState(Written(s, i, e)); }
    }

    // beginKeepaliveRequest's writes when it starts a call
    method WriteKeepaliveRequest(i: nat, key: Key, runID: nat)
      requires i < |goroutines| && key in arbiters && key in keepalives
      modifies `arbiters, `keepalives, `currentProcesses, `goroutines
      ensures arbiters == old(arbiters)[key := old(arbiters)[key].(owner := Keepalive, ownerRunID := runID)]
      ensures keepalives == old(keepalives)[key := old(keepalives)[key].(
        state := Requesting, requests := old(keepalives)[key].requests + 1, lastRequest := Some(now),
        nextRequest := None)]
      ensures currentProcesses == old(currentProcesses) + 1
      ensures goroutines == old(goroutines)[i := old(goroutines)[i].(
        pc := InRunner, calls := old(goroutines)[i].calls + [old(keepalives)[key].requests + 1])]
    {
      arbiters := arbiters[key := arbiters[key].(owner := Keepalive, ownerRunID := runID)];
      var current := keepalives[key];
      current := current.(
        state := Requesting, requests := current.requests + 1, lastRequest := Some(now), nextRequest := None);
      keepalives := keepalives[key := current];
      currentProcesses := currentProcesses + 1;
      goroutines := goroutines[i := goroutines[i].(pc := InRunner, calls := goroutines[i].calls + [current.requests])];
    }

    // beginKeepaliveRequest after acquire, when the run is current and the target free
    method EnterKeepaliveRequest(i: nat, ghost s: State)
      requires Enters(s, i, Proceed) && s.workers[i].pc.Begin? && s.workers[i].kind == Keepalive
      requires KeepaliveCurrent(s.cells[s.workers[i].key].keepalive, s.workers[i])
      requires !KeepaliveBlocked(s.cells[s.workers[i].key])
      modifies this
      ensures Shows(Stepped(s, i, Proceed))
    {
      hide KeepaliveCurrent, KeepaliveBlocked, QueueAhead, Observing, Snapshot, Publish, Formed, Broadcast, Stepped,
           Enabled, Rows, Jobs, Keepalives, Arbiters, BeginKeepalive;
      var key, runID := goroutines[i].key, goroutines[i].runID;
      ghost var e := BeginKeepalive(s.cells[key], s.workers[i], i, s.pool, s.env);
      Plan(s, i, Proceed, e);
      KeepaliveEntered(s.cells[key], s.workers[i], i, s.pool, s.env);
      WriteKeepaliveRequest(i, key, runID);
      assert Shows(Written(s, i, e));
      hide Shows, Written;
      BroadcastState(Written(s, i, e));
    }

    // beginKeepaliveRequest after acquire
    method ConfirmKeepaliveRequest(i: nat, ghost s: State)
      requires Enters(s, i, Proceed) && s.workers[i].pc.Begin? && s.workers[i].kind == Keepalive
      modifies this
      ensures Shows(Stepped(s, i, Proceed))
    {
      hide Observing, Snapshot, Publish, Formed, Broadcast, Stepped, Enabled, Rows, Jobs, Keepalives, Arbiters;
      var key, runID := goroutines[i].key, goroutines[i].runID;
      ghost var e := BeginKeepalive(s.cells[key], s.workers[i], i, s.pool, s.env);
      Plan(s, i, Proceed, e);
      var current, queue, arbiter := keepalives[key], jobs[key], arbiters[key];
      if current.runID != runID || current.state == Off {
        Goto(i, DropSlot);
        return;
      }
      if queue.state == Running || arbiter.owner != Nobody {
        RetreatKeepaliveRequest(i, s);
        return;
      }
      EnterKeepaliveRequest(i, s);
    }

    // finishKeepaliveRequest's writes to the keepalive
    method RecordResult(key: Key, result: Result, delay: int)
      requires key in keepalives
      modifies `keepalives
      ensures var p := old(keepalives)[key];
        keepalives == old(keepalives)[key :=
          (if result.success then p.(lastSuccess := Some(now))
           else p.(lastFailure := Some(now), lastError := result.error)).(
          state := WaitingNext, nextRequest := Some(now + delay))]
    {
      var current := keepalives[key];
      if result.success { current := current.(lastSuccess := Some(now)); }
      else { current := current.(lastFailure := Some(now), lastError := result.error); }
      keepalives := keepalives[key := current.(state := WaitingNext, nextRequest := Some(now + delay))];
    }

    // finishKeepaliveRequest when the run is the current one
    method ScheduleNextRequest(i: nat, delay: int, ghost s: State)
      requires Enters(s, i, Sampled(delay)) && s.workers[i].pc.Mark? && s.workers[i].kind == Keepalive
      requires KeepaliveCurrent(s.cells[s.workers[i].key].keepalive, s.workers[i])
      modifies this
      ensures Shows(Stepped(s, i, Sampled(delay)))
    {
      hide KeepaliveCurrent, Counters, Release, Signal, Observing, Snapshot, Publish, Formed, Broadcast, Stepped,
           Enabled, Rows, Jobs, Keepalives, Arbiters;
      var key, runID := goroutines[i].key, goroutines[i].runID;
      ghost var e := FinishKeepalive(s.cells[key], s.workers[i], s.pool, s.env, delay);
      Plan(s, i, Sampled(delay), e);
      RecordResult(key, goroutines[i].pc.result, delay);
      ReleaseTarget(key, Keepalive, runID);
      Goto(i, Sleep);
      assert Shows(Written(s, i, e));
      hide Shows, Written;
      BroadcastState(Written(s, i, e));
    }

    // finishKeepaliveRequest; `delay` is what randomDuration returned
    method FinishKeepaliveRequest(i: nat, delay: int, ghost s: State)
      requires Enters(s, i, Sampled(delay)) && s.workers[i].pc.Mark? && s.workers[i].kind == Keepalive
      modifies this
      ensures Shows(Stepped(s, i, Sampled(delay)))
    {
      hide Counters, Release, Signal, Observing, Formed, Broadcast, Stepped, Enabled, Rows, Jobs, Keepalives, Arbiters;
      var key, runID := goroutines[i].key, goroutines[i].runID;
      ghost var e := FinishKeepalive(s.cells[key], s.workers[i], s.pool, s.env, delay);
      Plan(s, i, Sampled(delay), e);
      var current := keepalives[key];
      if current.runID != runID || current.state == Off {
        ReleaseTarget(key, Keepalive, runID);
        Goto(i, Exit(false, false));
        return;
      }
      ScheduleNextRequest(i, delay, s);
    }

    // markKeepaliveCancelled's writes to the keepalive
    method CancelKeepalive(key: Key)
      requires key in keepalives
      modifies `keepalives
      ensures keepalives == old(keepalives)[key := old(keepalives)[key].(
        state := Off, stoppedAt := Some(now), nextRequest := None, cancel := None)]
    {
      keepalives := keepalives[key := keepalives[key].(
        state := Off, stoppedAt := Some(now), nextRequest := None, cancel := None)];
    }

    // markKeepaliveCancelled when the run is the current one
    method CancelKeepaliveRun(i: nat, ghost s: State)
      requires Enters(s, i, Proceed) && s.workers[i].pc.Cancel? && s.workers[i].kind == Keepalive
      requires KeepaliveCurrent(s.cells[s.workers[i].key].keepalive, s.workers[i])
      modifies this
      ensures Shows(Stepped(s, i, Proceed))
    {
      hide KeepaliveCurrent, Release, Signal, Observing, Counters, Formed, Broadcast, Stepped, Enabled, Rows, Jobs,
           Keepalives, Arbiters;
      var key, runID := goroutines[i].key, goroutines[i].runID;
      ghost var e := JobSteps.MarkKeepaliveCancelled(s.cells[key], s.workers[i], s.pool, s.env);
      Plan(s, i, Proceed, e);
      LaterStands(
        arbiters, key, Release(arbiters[key], Keepalive, runID), Signal(Release(arbiters[key], Keepalive, runID)));
      ReleaseTarget(key, Keepalive, runID);
      CancelKeepalive(key);
      SignalTarget(key);
      goroutines := goroutines[i := goroutines[i].(pc := Exit(false, false), verdict := Abandoned)];
      assert Shows(Written(s, i, e));
      hide Shows, Written;
      BroadcastState(Written(s, i, e));
    }

    method MarkKeepaliveCancelled(i: nat, ghost s: State)
      requires Enters(s, i, Proceed) && s.workers[i].pc.Cancel? && s.workers[i].kind == Keepalive
      modifies this
      ensures Shows(Stepped(s, i, Proceed))
    {
      hide Release, Observing, Counters, Settings, Formed, Stepped, Enabled, Rows, Jobs, Keepalives, Arbiters;
      var key, runID := goroutines[i].key, goroutines[i].runID;
      Plan(s, i, Proceed, JobSteps.MarkKeepaliveCancelled(s.cells[key], s.workers[i], s.pool, s.env));
      var current := keepalives[key];
      if current.runID == runID && current.state != Off {
        CancelKeepaliveRun(i, s);
        return;
      }
      ReleaseTarget(key, Keepalive, runID);
      Goto(i, Exit(false, false));
    }

    // waitKeepaliveNext, one round of its loop
    method WaitKeepaliveNext(i: nat, ghost s: State)
      requires Enters(s, i, Proceed) && s.workers[i].pc.Sleep? && s.workers[i].kind == Keepalive
      modifies `goroutines
      ensures Shows(Stepped(s, i, Proceed))
    {
      hide Observing, Formed, Stepped, Enabled, Rows, Jobs, Keepalives, Arbiters;
      var key, runID := goroutines[i].key, goroutines[i].runID;
      ghost var e := LookAtSchedule(s.cells[key], s.workers[i], s.pool, s.env);
      Plan(s, i, Proceed, e);
      var current := keepalives[key];
      if current.runID != runID || current.state == Off {
        Goto(i, Cancel);
      } else if current.nextRequest == None || current.nextRequest.value - now <= 0 {
        Goto(i, Claim);
      } else {
        Goto(i, SleepWait(current.nextRequest.value, current.schedule));
      }
    }

    // RunAdhoc between acquire and the prompt; `saw`: its ctx.Err() test found the context done
    method BeginAdhocRequest(i: nat, saw: bool, ghost s: State)
      requires Enters(s, i, if saw then SawCancelled else Proceed)
      requires s.workers[i].pc.Begin? && s.workers[i].kind == Adhoc
      modifies this
      ensures Shows(Stepped(s, i, if saw then SawCancelled else Proceed))
    {
      hide Observing, Snapshot, Publish, Formed, Broadcast, Stepped, Enabled, Rows, Jobs, Keepalives, Arbiters;
      var key, runID := goroutines[i].key, goroutines[i].runID;
      ghost var e := BeginAdhoc(s.cells[key], s.workers[i], s.pool, saw);
      Plan(s, i, if saw then SawCancelled else Proceed, e);
      if saw {
        Goto(i, Exit(true, false));
        return;
      }
      var arbiter := arbiters[key];
      if arbiter.owner != Adhoc || arbiter.ownerRunID != runID {
        Goto(i, Exit(true, false));
        return;
      }
      currentProcesses := currentProcesses + 1;
      Goto(i, InRunner);
      assert Shows(Written(s, i, e));
      hide Shows, Written;
      BroadcastState(Written(s, i, e));
    }

    // The part of finishAdhocRequest that gives back a slot and a process, and runWG.Done
    method ReturnCounters(slotAcquired: bool, processStarted: bool, ghost pool: Pool)
      requires Counters(pool)
      modifies `slotsInUse, `currentProcesses, `parallelChanged, `runWG
      ensures Counters(AdhocReturned(pool, slotAcquired, processStarted))
    {
      if processStarted && currentProcesses > 0 { currentProcesses := currentProcesses - 1; }
      if slotAcquired && slotsInUse > 0 {
        slotsInUse := slotsInUse - 1;
        parallelChanged := parallelChanged + 1;
      }
      runWG := runWG - 1;
    }

    // RunAdhoc's deferred cancel() and finishAdhocRequest
    method FinishAdhocRequest(i: nat, ghost s: State)
      requires Enters(s, i, Proceed) && s.workers[i].pc.Exit? && s.workers[i].kind == Adhoc
      modifies this
      ensures Shows(Stepped(s, i, Proceed))
    {
      hide Release, Signal, Observing, Snapshot, Publish, Formed, Broadcast, Stepped, Enabled, Rows, Jobs, Keepalives,
           Arbiters, Counters, AdhocReturned;
      var key, runID := goroutines[i].key, goroutines[i].runID;
      ghost var e := FinishAdhoc(s.cells[key], s.workers[i], s.pool);
      Plan(s, i, Proceed, e);
      ReturnCounters(goroutines[i].pc.slot, goroutines[i].pc.process, s.pool);
      ReleaseTarget(key, Adhoc, runID);
      goroutines := goroutines[i := goroutines[i].(pc := Done, cancelled := true)];
      assert Shows(Written(s, i, e));
      hide Shows, Written;
      BroadcastState(Written(s, i, e));
    }

    // finishQueueWorker and runWG.Done
    method FinishQueueRun(i: nat, ghost s: State)
      requires Enters(s, i, Proceed) && s.workers[i].pc.Exit? && s.workers[i].kind == Queue
      modifies this
      ensures Shows(Stepped(s, i, Proceed))
    {
      hide Observing, Snapshot, Publish, Formed, Broadcast, Stepped, Enabled, Rows, Jobs, Keepalives, Arbiters;
      var key := goroutines[i].key;
      ghost var e := FinishQueueWorker(s.cells[key], s.workers[i], s.pool);
      Plan(s, i, Proceed, e);
      var current := jobs[key];
      if current.workers > 0 { jobs := jobs[key := current.(workers := current.workers - 1)]; }
      runWG := runWG - 1;
      Goto(i, Done);
      assert Shows(Written(s, i, e));
      hide Shows, Written;
      if current.workers > 0 { BroadcastState(Written(s, i, e)); }
    }

    // finishKeepaliveWorker and runWG.Done
    method FinishKeepaliveRun(i: nat, ghost s: State)
      requires Enters(s, i, Proceed) && s.workers[i].pc.Exit? && s.workers[i].kind == Keepalive
      modifies this
      ensures Shows(Stepped(s, i, Proceed))
    {
      hide Observing, Snapshot, Publish, Formed, Broadcast, Stepped, Enabled, Rows, Jobs, Keepalives, Arbiters;
      var key := goroutines[i].key;
      ghost var e := FinishKeepaliveWorker(s.cells[key], s.workers[i], s.pool);
      Plan(s, i, Proceed, e);
      var current := keepalives[key];
      if current.workers > 0 { keepalives := keepalives[key := current.(workers := current.workers - 1)]; }
      runWG := runWG - 1;
      Goto(i, Done);
      assert Shows(Written(s, i, e));
      hide Shows, Written;
      if current.workers > 0 { BroadcastState(Written(s, i, e)); }
    }

    // A goroutine that waits is woken, gives up or is reached by its timer; one in the runner gets its result; one that
    // has given its slot back looks at its context.
    method Resume(i: nat, choice: Choice, ghost s: State)
      requires Enters(s, i, choice) && Resumes(s.workers[i])
      modifies `goroutines
      ensures Shows(Stepped(s, i, choice))
    {
      ResumingIsQuiet(s, i, choice);
      hide Observing, Formed, Stepped, Tables, Counters;
      var w := goroutines[i];
      match w.pc
      case ClaimWait(_) => Goto(i, if choice == Wake then Claim else Cancel);
      case SlotWait(_) =>
        Goto(i, if choice == Wake then Slot else if w.kind == Adhoc then Exit(false, false) else Cancel);
      case SleepWait(_, _) => Goto(i, if choice == Wake then Sleep else if choice == GiveUp then Cancel else Claim);
      case InRunner =>
        goroutines := goroutines[i := w.(
          results := w.results + [choice.result],
          pc := if w.kind == Adhoc then Exit(true, true) else Finish(choice.result))];
      case Returned(result) => Goto(i, if w.cancelled || rootDone then Cancel else Mark(result));
      case _ =>
    }

    // ---------------------------------------------------------------- stopping

    // stopQueueLocked's writes to the job, and the cancel function it takes out
    method EndQueueRun(key: Key) returns (cancel: Option<nat>)
      requires key in jobs
      modifies `jobs
      ensures jobs == old(jobs)[key := JobStopped(old(jobs)[key], now)] && cancel == old(jobs)[key].cancel
    {
      var current := jobs[key];
      cancel := current.cancel;
      current := current.(runID := current.runID + 1, cancel := None);
      if current.state == Running {
        current := current.(state := Stopped, finishedAt := Some(now), nextAttempt := None, subscribers := map[]);
      }
      jobs := jobs[key := current];
    }

    // stopQueueLocked
    method StopQueue(key: Key, ghost s: State)
      requires Shows(s) && Formed(s)
      modifies `jobs, `arbiters, `goroutines
      ensures Shows(JobApi.StopQueue(s, key))
    {
      hide Observing, Formed, Rows, Jobs, Keepalives, Arbiters, Counters, AbandonRun, JobStopped;
      TableEntries(s.cells, key);
      if key !in jobs { return; }
      if jobs[key].state != Running && jobs[key].workers == 0 { return; }
      TablesUpdate(s.cells, key, QueueStopped(s.cells[key], s.env.now));
      var cancel := EndQueueRun(key);
      SignalTarget(key);
      goroutines := AbandonRun(goroutines, cancel);
    }

    // stopKeepaliveLocked's writes to the keepalive, and the cancel function it takes out
    method EndKeepaliveRun(key: Key) returns (cancel: Option<nat>)
      requires key in keepalives
      modifies `keepalives
      ensures keepalives == old(keepalives)[key := KeepaliveJobStopped(old(keepalives)[key], now)]
      ensures cancel == old(keepalives)[key].cancel
    {
      var current := keepalives[key];
      cancel := current.cancel;
      current := current.(runID := current.runID + 1, cancel := None);
      if current.state != Off {
        current := current.(state := Off, stoppedAt := Some(now), nextRequest := None);
      }
      keepalives := keepalives[key := current];
    }

    // stopKeepaliveLocked
    method StopKeepalive(key: Key, ghost s: State)
      requires Shows(s) && Formed(s)
      modifies `keepalives, `arbiters, `goroutines
      ensures Shows(JobApi.StopKeepalive(s, key))
    {
      hide Observing, Formed, Rows, Jobs, Keepalives, Arbiters, Counters, AbandonRun, KeepaliveJobStopped;
      TableEntries(s.cells, key);
      if key !in keepalives { return; }
      if keepalives[key].state == Off && keepalives[key].workers == 0 { return; }
      TablesUpdate(s.cells, key, KeepaliveStopped(s.cells[key], s.env.now));
      var cancel := EndKeepaliveRun(key);
      SignalTarget(key);
      goroutines := AbandonRun(goroutines, cancel);
    }

    // stopAdhocLocked
    method StopAdhoc(key: Key, ghost s: State)
      requires Shows(s) && Formed(s)
      modifies `arbiters, `goroutines
      ensures Shows(JobApi.StopAdhoc(s, key))
    {
      hide Observing, Formed, Rows, Jobs, Keepalives, Arbiters, Counters, CancelContext;
      TableEntries(s.cells, key);
      if key !in arbiters || arbiters[key].owner != Adhoc { return; }
      TablesUpdate(s.cells, key, s.cells[key].(arbiter := s.cells[key].arbiter.(cancel := None)));
      var cancel := arbiters[key].cancel;
      arbiters := arbiters[key := arbiters[key].(cancel := None)];
      goroutines := CancelContext(goroutines, cancel);
    }

    // The part of stop's loop for one target; `stopped`: there was something to stop
    method StopOne(key: Key, ghost s: State) returns (stopped: bool)
      requires Shows(s) && Formed(s) && Counts(s) && key in s.cells
      modifies `jobs, `keepalives, `arbiters, `goroutines
      ensures Shows(StopTarget(s, key))
      ensures stopped == Stoppable(s.cells[key])
    {
      hide Observing, Formed, Rows, Jobs, Keepalives, Arbiters, Counters, Settings;
      TableEntries(s.cells, key);
      var current, keepalive := jobs[key], keepalives[key];
      stopped := arbiters[key].owner == Adhoc;
      ghost var s1, s2 := JobApi.StopQueue(s, key), JobApi.StopKeepalive(JobApi.StopQueue(s, key), key);
      StopsLeaveEachOther(s, key);
      hide Shows, Counts;
      if current.state == Running || current.workers > 0 {
        StopQueue(key, s);
        stopped := true;
      }
      if keepalive.state != Off || keepalive.workers > 0 {
        StopKeepalive(key, s1);
        stopped := true;
      }
      StopAdhoc(key, s2);
    }

    // containsAll
    method ContainsAll(names: seq<string>) returns (all: bool)
      ensures all <==> exists name <- names :: Normalize(name) in {"all", "全部", "*"}
    {
      for n := 0 to |names|
        invariant forall m :: 0 <= m < n ==> Normalize(names[m]) !in {"all", "全部", "*"}
      {
        if Normalize(names[n]) in {"all", "全部", "*"} { return true; }
      }
      return false;
    }

    // resolveLocked
    method ResolveNames(names: seq<string>, ghost s: State) returns (keys: seq<Key>, unknown: seq<string>)
      requires Shows(s)
      ensures (keys, unknown) == Resolve(s.cells, s.order, names)
    {
      var all := ContainsAll(names);
      if |names| == 0 || all { return order, []; }
      var seen := {};
      keys, unknown := [], [];
      ghost var r := ResolveEach(s.cells, names, {});
      assert names[0..] == names && [] + r.0 == r.0 && [] + r.1 == r.1;
      for n := 0 to |names|
        invariant var rest := ResolveEach(s.cells, names[n..], seen);
          (keys + rest.0, unknown + rest.1) == ResolveEach(s.cells, names, {})
      {
        var key := Normalize(names[n]);
        ghost var rest := ResolveEach(s.cells, names[n + 1..], seen + {key});
        assert names[n..][1..] == names[n + 1..];
        if key == "" || key in seen { continue; }
        seen := seen + {key};
        if key !in targets {
          assert unknown + ([names[n]] + rest.1) == unknown + [names[n]] + rest.1;
          unknown := unknown + [names[n]];
          continue;
        }
        assert keys + ([key] + rest.0) == keys + [key] + rest.0;
        keys := keys + [key];
      }
      assert names[|names|..] == [] && keys + [] == keys && unknown + [] == unknown;
    }

    method TargetName(key: Key, ghost s: State) returns (name: string)
      requires Shows(s) && key in s.cells
      ensures name == s.cells[key].target.name
    {
      name := targets[key].name;
    }

    // One round of stop's loop
    method StopNext(keys: seq<Key>, n: nat, ghost s: State) returns (name: string, some: bool)
      requires Formed(s) && Counts(s) && NoRepeats(keys) && n < |keys| && keys[n] in s.cells
      requires Shows(StopAll(s, keys[..n]))
      modifies `jobs, `keepalives, `arbiters, `goroutines
      ensures Shows(StopAll(s, keys[..n + 1]))
      ensures name == s.cells[keys[n]].target.name && some == Stoppable(s.cells[keys[n]])
    {
      hide Shows, StopTarget, Formed, Stoppable, Counts, NoRepeats;
      ghost var t := StopAll(s, keys[..n]);
      StopAllIsLocal(s, keys, n);
      StopMore(s, keys, n);
      hide StopAll;
      name := TargetName(keys[n], t);
      some := StopOne(keys[n], t);
    }

    // stop
    method Stop(names: seq<string>, ghost s: State)
      returns (stopped: seq<string>, inactive: seq<string>, unknown: seq<string>)
      requires Shows(s) && Formed(s) && Counts(s) && NoRepeats(s.order)
      modifies this
      ensures var keys := Resolve(s.cells, s.order, names).0;
        && Shows(JobApi.Stop(s, keys))
        && (forall k <- keys :: k in s.cells)
        && stopped == NamesOf(s.cells, keys, true) && inactive == NamesOf(s.cells, keys, false)
      ensures unknown == Resolve(s.cells, s.order, names).1
    {
      var keys: seq<Key>;
      keys, unknown := ResolveNames(names, s);
      ResolveIsExact(s.cells, s.order, names);
      hide Shows, StopTarget, Formed, Stoppable, NamesOf, AnyStoppable, Resolve, Counts, StopAll, Broadcast,
           NoRepeats;
      stopped, inactive := [], [];
      var changed := false;
      StopNothing(s, keys);
      for n := 0 to |keys|
        invariant Shows(StopAll(s, keys[..n]))
        invariant changed == AnyStoppable(s, keys[..n])
        invariant stopped == NamesOf(s.cells, keys[..n], true) && inactive == NamesOf(s.cells, keys[..n], false)
      {
        StopMore(s, keys, n);
        NamesMore(s.cells, keys, n, true);
        NamesMore(s.cells, keys, n, false);
        var name, some := StopNext(keys, n, s);
        if some { stopped := stopped + [name]; changed := true; }
        else { inactive := inactive + [name]; }
      }
      assert keys[..|keys|] == keys;
      if changed { BroadcastState(StopAll(s, keys)); }
    }

    method HasTarget(key: Key, ghost s: State) returns (has: bool)
      requires Shows(s)
      ensures has == (key in s.cells)
    {
      TableEntries(s.cells, key);
      has := key in targets;
    }

    // targetKeyByIDLocked
    method TargetKeyByID(id: int, ghost s: State) returns (key: Option<Key>)
      requires Shows(s) && Formed(s)
      ensures key == KeyOf(s.cells, s.order, id)
    {
      assert order[0..] == order;
      for n := 0 to |order|
        invariant KeyOf(s.cells, s.order, id) == KeyOf(s.cells, s.order[n..], id)
      {
        assert order[n..][1..] == order[n + 1..];
        if targets[order[n]].id == id { return Some(order[n]); }
      }
      return None;
    }

    // TargetByID
    method TargetByID(id: int, ghost s: State) returns (target: Option<Target>)
      requires Shows(s) && Formed(s)
      ensures target == match KeyOf(s.cells, s.order, id) case None => None case Some(k) => Some(s.cells[k].target)
    {
      var key := TargetKeyByID(id, s);
      if key.None? { return None; }
      return Some(targets[key.value]);
    }

    // What waitTargetIdle polls
    method IsBusy(key: Key, ghost s: State) returns (busy: bool)
      requires Shows(s) && key in s.cells
      ensures busy == Busy(s.cells[key])
    {
      busy := TargetBusy(key, s.cells);
    }

    // The section UpdateTarget and DeleteTarget begin with
    method StopByID(id: int, ghost s: State) returns (key: Option<Key>)
      requires Shows(s) && Formed(s) && Counts(s)
      modifies this
      ensures Shows(JobApi.StopByID(s, id)) && key == KeyOf(s.cells, s.order, id)
    {
      key := TargetKeyByID(id, s);
      if key.None? { return; }
      hide Shows, Formed, KeyOf, Busy, StopTarget, Broadcast;
      var busy := IsBusy(key.value, s);
      if busy {
        var stopped := StopOne(key.value, s);
        BroadcastState(StopTarget(s, key.value));
      }
    }

    // ---------------------------------------------------------------- starting

    // addSubscriberLocked's effect on the subscribers
    method Subscribed(subscribers: Subscribers, sub: Subscriber) returns (r: Subscribers)
      ensures r == WithSubscriber(subscribers, sub)
    {
      r := subscribers;
      if sub.recipient == "" { return; }
      var subscriberKey := TrimSpace(sub.key);
      if subscriberKey == "" { subscriberKey := sub.recipient; }
      r := r[subscriberKey := sub];
    }

    // addSubscriberLocked on a running job
    method AddSubscriber(key: Key, sub: Subscriber, ghost s: State)
      requires Shows(s) && Formed(s) && key in s.cells
      modifies `jobs, `goroutines
      ensures Shows(JobApi.AddSubscriber(s, key, sub))
    {
      hide Observing, Formed, Rows, Jobs, Keepalives, Arbiters, Counters, Settings, WithSubscriber;
      TableEntries(s.cells, key);
      ghost var c := s.cells[key];
      TablesUpdate(s.cells, key, c.(job := c.job.(subscribers := WithSubscriber(c.job.subscribers, sub))));
      var n := jobs[key].cancel;
      var subscribers := Subscribed(jobs[key].subscribers, sub);
      jobs := jobs[key := jobs[key].(subscribers := subscribers)];
      if n.Some? && n.value < |goroutines| {
        var registered := Subscribed(goroutines[n.value].registered, sub);
        goroutines := goroutines[n.value := goroutines[n.value].(registered := registered)];
      }
    }

    // startQueue when prepareMode refused
    method JoinQueue(key: Key, sub: Subscriber, ghost s: State) returns (known: bool)
      requires Shows(s) && Formed(s)
      modifies `jobs, `goroutines
      ensures Shows(JobApi.JoinQueue(s, key, sub)) && known == (key in s.cells)
    {
      TableEntries(s.cells, key);
      known := key in targets;
      if !known { return; }
      var running := jobs[key].state == Running;
      hide Shows, Formed, JobApi.AddSubscriber;
      if running { AddSubscriber(key, sub, s); }
    }

    method CountQueueWorker(key: Key)
      requires key in jobs
      modifies `jobs
      ensures jobs == old(jobs)[key := old(jobs)[key].(workers := old(jobs)[key].workers + 1)]
    {
      jobs := jobs[key := jobs[key].(workers := jobs[key].workers + 1)];
    }

    // startQueue after its broadcast: the goroutine starts
    method GoQueue(key: Key, ghost s: State)
      requires Shows(s) && key in s.cells
      modifies `arbiters, `jobs, `runWG, `goroutines
      ensures Shows(QueueGoes(s, key))
    {
      hide Observing, Rows, Jobs, Keepalives, Arbiters, Settings;
      ghost var d := s.cells[key];
      TableEntries(s.cells, key);
      TablesUpdate(s.cells, key, d.(arbiter := Signal(d.arbiter), job := d.job.(workers := d.job.workers + 1)));
      SignalTarget(key);
      runWG := runWG + 1;
      CountQueueWorker(key);
      goroutines := goroutines + [NewWorker(Queue, key, jobs[key].runID, Claim, jobs[key].subscribers)];
    }

    // startQueue after prepareMode
    method LaunchQueue(key: Key, sub: Subscriber, ghost s: State) returns (outcome: StartOutcome)
      requires Shows(s) && Formed(s)
      modifies this
      ensures Shows(StartQueue(s, key, sub)) && outcome == StartQueueOutcome(s, key)
    {
      hide Observing, Formed, Rows, Jobs, Keepalives, Arbiters, Counters, WithSubscriber, Snapshot, Publish, Broadcast,
           JobApi.AddSubscriber, StartQueue, QueueGoes;
      TableEntries(s.cells, key);
      if key !in targets { StartQueueRefused(s, key, sub); return Missing; }
      if shuttingDown { StartQueueRefused(s, key, sub); return Already; }
      var current := jobs[key];
      if current.state == Running {
        StartQueueRefused(s, key, sub);
        AddSubscriber(key, sub, s);
        return Already;
      }
      var keepalive := keepalives[key];
      if keepalive.state != Off || keepalive.workers > 0 { StartQueueRefused(s, key, sub); return Retry; }
      ghost var d := QueueAnnounced(s, key, sub);
      ghost var announced := s.(cells := s.cells[key := d]);
      StartQueueInSteps(s, key, sub);
      TablesUpdate(s.cells, key, d);
      var subscribers := Subscribed(current.subscribers, sub);
      current := current.(
        subscribers := subscribers, runID := current.runID + 1, cancel := Some(|goroutines|), state := Running,
        attempts := 0, startedAt := Some(now), lastAttempt := None, nextAttempt := None, finishedAt := None,
        lastError := "");
      jobs := jobs[key := current];
      assert Shows(announced);
      hide Shows;
      BroadcastState(announced);
      GoQueue(key, Broadcast(announced));
      return Started;
    }

    // startKeepalive after its broadcast
    method GoKeepalive(key: Key, ghost s: State)
      requires Shows(s) && key in s.cells
      modifies `arbiters, `keepalives, `runWG, `goroutines
      ensures Shows(KeepaliveGoes(s, key))
    {
      hide Observing, Rows, Jobs, Keepalives, Arbiters, Settings;
      ghost var d := s.cells[key];
      TableEntries(s.cells, key);
      TablesUpdate(s.cells, key, d.(
                   arbiter := Signal(d.arbiter), keepalive := d.keepalive.(workers := d.keepalive.workers + 1)));
      SignalTarget(key);
      runWG := runWG + 1;
      var current := keepalives[key];
      keepalives := keepalives[key := current.(workers := current.workers + 1)];
      goroutines := goroutines + [NewWorker(Keepalive, key, current.runID, Claim, map[])];
    }

    // startKeepalive after prepareMode
    method LaunchKeepalive(key: Key, ghost s: State) returns (outcome: StartOutcome)
      requires Shows(s) && Formed(s)
      modifies this
      ensures Shows(StartKeepalive(s, key)) && outcome == StartKeepaliveOutcome(s, key)
    {
      hide Observing, Formed, Rows, Jobs, Keepalives, Arbiters, Counters, Snapshot, Publish, Broadcast, StartKeepalive,
           KeepaliveGoes;
      TableEntries(s.cells, key);
      if key !in targets { StartKeepaliveRefused(s, key); return Missing; }
      if shuttingDown { StartKeepaliveRefused(s, key); return Already; }
      var current := keepalives[key];
      if current.state != Off { StartKeepaliveRefused(s, key); return Already; }
      var queue := jobs[key];
      if queue.state == Running || queue.workers > 0 { StartKeepaliveRefused(s, key); return Retry; }
      ghost var d := KeepaliveAnnounced(s, key);
      ghost var announced := s.(cells := s.cells[key := d]);
      StartKeepaliveInSteps(s, key);
      TablesUpdate(s.cells, key, d);
      current := current.(
        runID := current.runID + 1, cancel := Some(|goroutines|), state := Requesting, requests := 0,
        startedAt := Some(now), lastRequest := None, lastSuccess := None, lastFailure := None, nextRequest := None,
        stoppedAt := None, lastError := "");
      keepalives := keepalives[key := current];
      assert Shows(announced);
      hide Shows;
      BroadcastState(announced);
      GoKeepalive(key, Broadcast(announced));
      return Started;
    }

    // prepareMode, one round of its loop
    method PrepareMode(key: Key, desired: Owner, ghost s: State) returns (prepared: Prepared)
      requires Shows(s) && Formed(s) && Counts(s)
      modifies this
      ensures Shows(JobApi.PrepareMode(s, key, desired).0) && prepared == JobApi.PrepareMode(s, key, desired).1
    {
      hide Observing, Formed, Rows, Jobs, Keepalives, Arbiters, Counters, Broadcast, Busy, Counts, JobApi.StopAdhoc,
           JobApi.StopKeepalive, JobApi.StopQueue;
      TableEntries(s.cells, key);
      if key !in targets || shuttingDown { return Refused; }
      var queue, keepalive, arbiter := jobs[key], keepalives[key], arbiters[key];
      if desired == Queue && queue.state == Running { return Refused; }
      if desired == Keepalive && keepalive.state != Off { return Refused; }
      PrepareStops(s, key);
      hide Shows;
      var changed := false;
      ghost var t := s;
      StopAdhoc(key, s);
      t := JobApi.StopAdhoc(s, key);
      if arbiter.owner == Adhoc { changed := true; }
      if desired == Queue && (keepalive.state != Off || keepalive.workers > 0) {
        StopKeepalive(key, t);
        t := JobApi.StopKeepalive(t, key);
        changed := true;
      }
      if desired == Keepalive && (queue.state == Running || queue.workers > 0) {
        StopQueue(key, t);
        t := JobApi.StopQueue(t, key);
        changed := true;
      }
      var busy := IsBusy(key, t);
      if changed { BroadcastState(t); }
      return if busy then Waiting else Ready;
    }

    // ---------------------------------------------------------------- ad-hoc requests

    // RunAdhoc's writes under its first lock
    method TakeForAdhoc(key: Key, ghost s: State)
      requires Shows(s) && Formed(s) && key in s.cells
      modifies this
      ensures Shows(Broadcast(AdhocSpawned(s, key)))
    {
      hide Observing, Formed, Rows, Jobs, Keepalives, Arbiters, Snapshot, Publish, Broadcast;
      ghost var t := AdhocSpawned(s, key);
      TableEntries(s.cells, key);
      TablesUpdate(s.cells, key, AdhocReserved(s.cells[key], |s.workers|, s.env.nextAdhocRunID + 1));
      nextAdhocRunID := nextAdhocRunID + 1;
      var runID := nextAdhocRunID;
      arbiters := arbiters[key := arbiters[key].(owner := Adhoc, ownerRunID := runID, cancel := Some(|goroutines|))];
      runWG := runWG + 1;
      goroutines := goroutines + [NewWorker(Adhoc, key, runID, Slot, map[])];
      assert Shows(t);
      hide Shows, AdhocSpawned;
      BroadcastState(t);
    }

    // RunAdhoc up to acquire
    method ReserveAdhoc(id: int, ghost s: State) returns (outcome: AdhocOutcome)
      requires Shows(s) && Formed(s)
      modifies this
      ensures Shows(JobApi.ReserveAdhoc(s, id)) && outcome == ReserveOutcome(s, id)
    {
      var found := TargetKeyByID(id, s);
      if found.None? { return NotFound; }
      if shuttingDown || rootDone { return AdhocOutcome.ShuttingDown; }
      var key := found.value;
      var busy := IsBusy(key, s);
      if busy { return AdhocOutcome.TargetBusy; }
      AdhocIsSpawned(s, id, key);
      hide Shows, Formed, AdhocSpawned, Broadcast, KeyOf, Busy, JobApi.ReserveAdhoc;
      TakeForAdhoc(key, s);
      return Reserved;
    }

    // The request context of an ad-hoc run is cancelled
    method HangUp(i: nat, ghost s: State)
      requires Shows(s) && i < |s.workers|
      modifies `goroutines
      ensures Shows(DropRequest(s, i))
    {
      hide Observing, Tables, Counters, Settings;
      goroutines := CancelContext(goroutines, Some(i));
    }

    // ---------------------------------------------------------------- settings and shutdown

    // One round of UpdateSettings' loop over the keepalives
    method RescheduleOne(key: Key, samples: map<Key, int>, ghost c: Cell)
      requires key in keepalives && keepalives[key] == c.keepalive && (Resampled(c) ==> key in samples)
      modifies `keepalives
      ensures keepalives == old(keepalives)[key := Rescheduled(c, now, samples, key).keepalive]
    {
      var current := keepalives[key];
      if current.state == WaitingNext && current.nextRequest != None {
        keepalives := keepalives[key := current.(
          nextRequest := Some(now + samples[key]), schedule := current.schedule + 1)];
      }
    }

    // Every waiting keepalive is resampled, in no particular order; `samples` are the values randomDuration returns
    method Reschedule(samples: map<Key, int>, ghost cells: map<Key, Cell>)
      requires keepalives == Keepalives(cells)
      requires forall k <- cells :: Resampled(cells[k]) ==> k in samples
      modifies `keepalives
      ensures keepalives == Keepalives(map k | k in cells :: Rescheduled(cells[k], now, samples, k))
    {
      var rest := keepalives.Keys;
      while rest != {}
        invariant rest <= cells.Keys && keepalives.Keys == cells.Keys
        invariant forall k <- cells | k in rest :: keepalives[k] == cells[k].keepalive
        invariant forall k <- cells | k !in rest :: keepalives[k] == Rescheduled(cells[k], now, samples, k).keepalive
      {
        var key :| key in rest;
        rest := rest - {key};
        RescheduleOne(key, samples, cells[key]);
      }
    }

    // The part of UpdateSettings about the intervals
    method ApplyIntervals(minimum: int, maximum: int, samples: map<Key, int>, ghost s: State)
      requires Tables(s.cells) && Settings(s.env) && AreSamples(s.cells, samples, minimum, maximum)
      modifies `keepaliveMin, `keepaliveMax, `keepalives
      ensures keepaliveMin == minimum && keepaliveMax == maximum
      ensures Tables(CellsAfter(s, minimum, maximum, samples))
    {
      hide Rows, Jobs, Keepalives, Arbiters;
      SettingsTables(s, minimum, maximum, samples);
      if minimum != keepaliveMin || maximum != keepaliveMax {
        keepaliveMin, keepaliveMax := minimum, maximum;
        Reschedule(samples, s.cells);
      }
    }

    method ResizePool(parallel: int)
      modifies `maxParallel, `parallelChanged
      ensures var resizes := parallel > 0 && parallel != old(maxParallel);
        && maxParallel == (if resizes then parallel else old(maxParallel))
        && parallelChanged == (if resizes then old(parallelChanged) + 1 else old(parallelChanged))
    {
      if parallel > 0 && parallel != maxParallel {
        maxParallel := parallel;
        parallelChanged := parallelChanged + 1;
      }
    }

    // UpdateSettings up to its broadcast
    method ApplySettings(
      minimum: int, maximum: int, parallel: int, message: string, samples: map<Key, int>, ghost s: State)
      requires Shows(s) && AreSamples(s.cells, samples, minimum, maximum)
      modifies `keepaliveMin, `keepaliveMax, `keepalives, `maxParallel, `parallelChanged, `successMessage
      ensures Shows(s.(
        cells := CellsAfter(s, minimum, maximum, samples), pool := PoolAfter(s.pool, s.env, parallel),
        env := EnvAfter(s.env, minimum, maximum, parallel, message)))
    {
      hide Observing, Tables, CellsAfter, AreSamples;
      ApplyIntervals(minimum, maximum, samples, s);
      ResizePool(parallel);
      successMessage := message;
    }

    method UpdateSettings(
      minimum: int, maximum: int, parallel: int, message: string, samples: map<Key, int>, ghost s: State)
      requires Shows(s) && Formed(s) && AreSamples(s.cells, samples, minimum, maximum)
      modifies this
      ensures Shows(JobApi.UpdateSettings(s, minimum, maximum, parallel, message, samples))
    {
      hide Shows, Formed, Broadcast, CellsAfter;
      ApplySettings(minimum, maximum, parallel, message, samples, s);
      ghost var t := s.(
        cells := CellsAfter(s, minimum, maximum, samples), pool := PoolAfter(s.pool, s.env, parallel),
        env := EnvAfter(s.env, minimum, maximum, parallel, message));
      SettingsFormed(s, t);
      BroadcastState(t);
    }

    // The cancel functions in one of the maps are called, in no particular order.
    method CancelAll(cancels: map<Key, Option<nat>>)
      modifies `goroutines
      ensures |goroutines| == |old(goroutines)|
      ensures forall i :: 0 <= i < |goroutines| ==>
        goroutines[i] == CancelledIf(old(goroutines)[i], Cancels(cancels, {}, i))
    {
      var rest := cancels.Keys;
      while rest != {}
        invariant rest <= cancels.Keys && |goroutines| == |old(goroutines)|
        invariant forall i :: 0 <= i < |goroutines| ==>
          goroutines[i] == CancelledIf(old(goroutines)[i], Cancels(cancels, rest, i))
      {
        var key :| key in rest;
        rest := rest - {key};
        goroutines := CancelContext(goroutines, cancels[key]);
      }
    }

    method BeginShutdown(ghost s: State)
      requires Shows(s) && Formed(s)
      modifies `shuttingDown, `goroutines
      ensures Shows(JobApi.BeginShutdown(s))
    {
      hide Observing, Counters, Rows, Jobs, Keepalives, Arbiters, QueueCancels, KeepaliveCancels, AdhocCancels,
           Cancels, ToCancel;
      if shuttingDown { return; }
      shuttingDown := true;
      CancelAll(QueueCancels(jobs));
      CancelAll(KeepaliveCancels(keepalives));
      CancelAll(AdhocCancels(arbiters));
      forall i | 0 <= i < |s.workers| ensures goroutines[i] == JobApi.BeginShutdown(s).workers[i] {
        CancelledByOneOf(s.cells, i);
      }
    }

    // ---------------------------------------------------------------- observers

    // Observe
    method Subscribe(buffer: int, ghost s: State) returns (snapshot: ManagerSnapshot, id: nat)
      requires Shows(s) && Formed(s)
      modifies `channels, `observers
      ensures Shows(Observe(s, buffer)) && snapshot == Snapshot(s) && id == |s.feed.streams|
    {
      snapshot := TakeSnapshot(s);
      hide Tables, Counters, Settings, Snapshot;
      var capacity := if buffer <= 0 then 32 else buffer;
      id := |channels|;
      channels := channels + [Stream(capacity, nextEventID, Event(nextEventID, snapshot), [], 0, true)];
      observers := observers + {id};
    }

    // Subscription.Close
    method CloseSubscription(id: nat, ghost s: State)
      requires Shows(s) && Formed(s) && id < |s.feed.streams|
      modifies `channels, `observers
      ensures Shows(Unsubscribe(s, id))
    {
      hide Tables, Counters, Settings;
      if id in observers {
        observers := observers - {id};
        channels := channels[id := channels[id].(open := false)];
      }
    }

    // The subscriber takes an event off its channel
    method TakeEvent(id: nat, ghost s: State) returns (event: Event)
      requires Shows(s) && Formed(s) && id < |s.feed.streams|
      requires s.feed.streams[id].received < |s.feed.streams[id].sent|
      modifies `channels
      ensures Shows(Receive(s, id)) && event == s.feed.streams[id].sent[s.feed.streams[id].received]
    {
      hide Tables, Counters, Settings;
      event := channels[id].sent[channels[id].received];
      channels := channels[id := channels[id].(received := channels[id].received + 1)];
    }

    // ---------------------------------------------------------------- targets

    // sortTargetsLocked
    method SortTargets(ghost cells: map<Key, Cell>)
      requires targets == Rows(cells) && Listed(cells, order)
      modifies `order
      ensures order == JobRegistry.SortTargets(old(order), cells)
    {
      SettledRows(order, cells);
      SortByRows(order, Settled(targets), cells);
      order := JobRegistry.SortTargets(order, Settled(targets));
    }

    // A target gets entries of its own
    method FileEntries(key: Key, target: Target, ghost cells: map<Key, Cell>)
      requires Tables(cells)
      modifies `targets, `jobs, `keepalives, `arbiters
      ensures Tables(cells[key := NewCell(target)])
    {
      hide Rows, Jobs, Keepalives, Arbiters;
      TablesUpdate(cells, key, NewCell(target));
      targets := targets[key := target];
      jobs := jobs[key := NEW_JOB];
      keepalives := keepalives[key := NEW_KEEPALIVE];
      arbiters := arbiters[key := NEW_ARBITER];
    }

    // What CreateTarget does once everything is checked and persisted
    method FileTarget(key: Key, target: Target, ghost s: State)
      requires Shows(s)
      modifies `targets, `jobs, `keepalives, `arbiters, `order
      ensures Shows(s.(cells := s.cells[key := NewCell(target)], order := s.order + [key]))
    {
      hide Observing, Counters, Settings, Tables;
      FileEntries(key, target, s.cells);
      order := order + [key];
    }

    // The listing is sorted and announced
    method ResortTargets(ghost s: State)
      requires Shows(s) && Listed(s.cells, s.order)
      requires Formed(s.(order := JobRegistry.SortTargets(s.order, s.cells)))
      modifies this
      ensures Shows(Broadcast(s.(order := JobRegistry.SortTargets(s.order, s.cells))))
    {
      hide Observing, Formed, Rows, Jobs, Keepalives, Arbiters, Counters, Settings, Broadcast, Listed,
           JobRegistry.SortTargets;
      SortTargets(s.cells);
      ghost var t := s.(order := order);
      assert Shows(t);
      hide Shows;
      BroadcastState(t);
    }

    // CreateTarget; `persisted` is what persist left in the target, None if it failed
    method CreateTarget(name: string, persisted: Option<Target>, ghost s: State) returns (outcome: Option<Outcome>)
      requires Shows(s) && Formed(s)
      modifies this
      ensures CreateOutcome(s, name) != Committed ==> outcome == Some(NameTaken) && Shows(s)
      ensures CreateOutcome(s, name) == Committed && persisted.None? ==> outcome == None && Shows(s)
      ensures CreateOutcome(s, name) == Committed && persisted.Some? ==>
        outcome == Some(CreateOutcome(s, persisted.value.name)) && Shows(JobRegistry.CreateTarget(s, persisted.value))
    {
      hide Normalize, Broadcast, JobRegistry.CreateTarget, JobRegistry.SortTargets, Formed;
      TableEntries(s.cells, Normalize(name));
      if Normalize(name) in targets { return Some(NameTaken); }
      if persisted.None? { return None; }
      var target := persisted.value;
      var key := Normalize(target.name);
      TableEntries(s.cells, key);
      CreateInSteps(s, target);
      if key in targets { return Some(NameTaken); }
      hide Shows;
      FileTarget(key, target, s);
      ResortTargets(s.(cells := s.cells[key := NewCell(target)], order := s.order + [key]));
      return Some(Committed);
    }

    // The checks UpdateTarget makes before and again after persist
    method CheckUpdate(id: int, name: string, ghost s: State) returns (outcome: Outcome)
      requires Shows(s) && Formed(s)
      ensures outcome == UpdateOutcome(s, id, name)
    {
      var found := TargetKeyByID(id, s);
      if found.None? { return NoSuchTarget; }
      var busy := IsBusy(found.value, s);
      if busy { return StillBusy; }
      TableEntries(s.cells, Normalize(name));
      if Normalize(name) in targets && targets[Normalize(name)].id != id { return NameTaken; }
      return Committed;
    }

    // The loop over `order` in UpdateTarget
    method ReplaceInOrder(oldKey: Key, newKey: Key)
      requires oldKey in order
      modifies `order
      ensures order == Renamed(old(order), oldKey, newKey)
    {
      for index := 0 to |order|
        invariant order == old(order) && oldKey !in order[..index]
      {
        if order[index] == oldKey {
          RenamedAt(order, oldKey, newKey, index);
          order := order[index := newKey];
          return;
        }
      }
    }

    method MoveEntries(oldKey: Key, newKey: Key)
      requires oldKey in jobs && oldKey in keepalives && oldKey in arbiters && oldKey in order
      modifies `targets, `jobs, `keepalives, `arbiters, `order
      ensures targets == old(targets) - {oldKey}
      ensures jobs == (old(jobs) - {oldKey})[newKey := old(jobs)[oldKey]]
      ensures keepalives == (old(keepalives) - {oldKey})[newKey := old(keepalives)[oldKey]]
      ensures arbiters == (old(arbiters) - {oldKey})[newKey := old(arbiters)[oldKey]]
      ensures order == Renamed(old(order), oldKey, newKey)
    {
      var currentJob, currentKeepalive, currentArbiter := jobs[oldKey], keepalives[oldKey], arbiters[oldKey];
      targets := targets - {oldKey};
      jobs := (jobs - {oldKey})[newKey := currentJob];
      keepalives := (keepalives - {oldKey})[newKey := currentKeepalive];
      arbiters := (arbiters - {oldKey})[newKey := currentArbiter];
      ReplaceInOrder(oldKey, newKey);
    }

    // A renamed target's entries move to the new key
    method RenameEntries(oldKey: Key, newKey: Key, target: Target, ghost s: State)
      requires Shows(s) && oldKey in s.cells && oldKey in s.order
      modifies `targets, `jobs, `keepalives, `arbiters, `order
      ensures Shows(s.(
        cells := CellsRenamed(s.cells, oldKey, newKey, target), order := OrderRenamed(s.order, oldKey, newKey)))
    {
      TableEntries(s.cells, oldKey);
      TablesRenamed(s.cells, oldKey, newKey, target);
      hide Observing, Rows, Jobs, Keepalives, Arbiters, Counters, Settings, CellsRenamed, Renamed;
      if newKey != oldKey { MoveEntries(oldKey, newKey); }
      targets := targets[newKey := target];
    }

    // What UpdateTarget does once everything is checked and persisted
    method RenameTarget(id: int, oldKey: Key, newKey: Key, target: Target, ghost s: State)
      requires Shows(s) && Formed(s) && NoRepeats(s.order) && UpdateOutcome(s, id, target.name) == Committed
      requires KeyOf(s.cells, s.order, id) == Some(oldKey) && newKey == Normalize(target.name)
      modifies this
      ensures Shows(JobRegistry.UpdateTarget(s, id, target))
    {
      hide Shows, Formed, Broadcast, Normalize, NoRepeats, JobRegistry.SortTargets, JobRegistry.UpdateTarget, KeyOf,
           CellsRenamed, OrderRenamed, UpdateOutcome;
      UpdateInSteps(s, id, oldKey, target);
      ghost var cells := CellsRenamed(s.cells, oldKey, newKey, target);
      RenameEntries(oldKey, newKey, target, s);
      ResortTargets(s.(cells := cells, order := OrderRenamed(s.order, oldKey, newKey)));
    }

    // UpdateTarget after waiting; `persisted` as for CreateTarget
    method UpdateTarget(id: int, name: string, persisted: Option<Target>, ghost s: State)
      returns (outcome: Option<Outcome>)
      requires Shows(s) && Formed(s) && NoRepeats(s.order)
      modifies this
      ensures UpdateOutcome(s, id, name) != Committed ==> outcome == Some(UpdateOutcome(s, id, name)) && Shows(s)
      ensures UpdateOutcome(s, id, name) == Committed && persisted.None? ==> outcome == None && Shows(s)
      ensures UpdateOutcome(s, id, name) == Committed && persisted.Some? ==>
        && outcome == Some(UpdateOutcome(s, id, persisted.value.name))
        && Shows(JobRegistry.UpdateTarget(s, id, persisted.value))
    {
      var checked := CheckUpdate(id, name, s);
      if checked != Committed { return Some(checked); }
      if persisted.None? { return None; }
      var target := persisted.value;
      checked := CheckUpdate(id, target.name, s);
      if checked != Committed { return Some(checked); }
      var oldKey := TargetKeyByID(id, s);
      RenameTarget(id, oldKey.value, Normalize(target.name), target, s);
      return Some(Committed);
    }

    // The checks DeleteTarget makes before persist
    method CheckDelete(id: int, ghost s: State) returns (outcome: Outcome)
      requires Shows(s) && Formed(s)
      ensures outcome == DeleteOutcome(s, id)
    {
      var found := TargetKeyByID(id, s);
      if found.None? { return NoSuchTarget; }
      var busy := IsBusy(found.value, s);
      return if busy then StillBusy else Committed;
    }

    method RemoveEntries(key: Key)
      modifies `targets, `jobs, `keepalives, `arbiters
      ensures targets == old(targets) - {key} && jobs == old(jobs) - {key}
      ensures keepalives == old(keepalives) - {key} && arbiters == old(arbiters) - {key}
    {
      targets := targets - {key};
      jobs := jobs - {key};
      keepalives := keepalives - {key};
      arbiters := arbiters - {key};
    }

    // The loop over `order` in DeleteTarget
    method RemoveFromOrder(key: Key)
      requires key in order
      modifies `order
      ensures order == Without(old(order), key)
    {
      for index := 0 to |order|
        invariant order == old(order) && key !in order[..index]
      {
        if order[index] == key {
          WithoutAt(order, key, index);
          order := order[..index] + order[index + 1..];
          return;
        }
      }
    }

    // What DeleteTarget does once everything is checked and persisted
    method DropEntries(key: Key, ghost s: State)
      requires Shows(s) && key in s.order
      modifies `targets, `jobs, `keepalives, `arbiters, `order
      ensures Shows(s.(cells := s.cells - {key}, order := Without(s.order, key)))
    {
      hide Observing, Rows, Jobs, Keepalives, Arbiters, Counters, Settings, Without;
      TablesWithout(s.cells, key);
      RemoveEntries(key);
      RemoveFromOrder(key);
    }

    // DeleteTarget after waiting; `persisted`: persist succeeded
    method DeleteTarget(id: int, persisted: bool, ghost s: State) returns (outcome: Option<Outcome>)
      requires Shows(s) && Formed(s) && NoRepeats(s.order)
      modifies this
      ensures DeleteOutcome(s, id) != Committed ==> outcome == Some(DeleteOutcome(s, id)) && Shows(s)
      ensures DeleteOutcome(s, id) == Committed && !persisted ==> outcome == None && Shows(s)
      ensures DeleteOutcome(s, id) == Committed && persisted ==>
        outcome == Some(Committed) && Shows(JobRegistry.DeleteTarget(s, id))
    {
      var checked := CheckDelete(id, s);
      if checked != Committed { return Some(checked); }
      if !persisted { return None; }
      var key := TargetKeyByID(id, s);
      DeleteInSteps(s, id, key.value);
      hide Shows, Formed, Broadcast, JobRegistry.DeleteTarget, KeyOf, Without, NoRepeats, Busy;
      DropEntries(key.value, s);
      BroadcastState(s.(cells := s.cells - {key.value}, order := Without(s.order, key.value)));
      return Some(Committed);
    }

    // ---------------------------------------------------------------- the start, and the outside world

    // New's loop over the configured targets
    method LoadRows(rows: seq<Target>)
      requires targets == map[] && jobs == map[] && keepalives == map[] && arbiters == map[] && order == []
      modifies `targets, `jobs, `keepalives, `arbiters, `order
      ensures Tables(CellsFor(rows)) && order == OrderFor(rows)
    {
      for n := 0 to |rows|
        invariant Tables(CellsFor(rows[..n])) && order == OrderFor(rows[..n])
      {
        hide Normalize, Tables, CellsFor, OrderFor;
        RowsFurther(rows, n);
        FileEntries(Normalize(rows[n].name), rows[n], CellsFor(rows[..n]));
        order := order + [Normalize(rows[n].name)];
      }
      assert rows[..|rows|] == rows;
    }

    // New
    constructor (
      rows: seq<Target>, keepaliveMin: int, keepaliveMax: int, maxParallel: int, successMessage: string, now: int,
      rootDone: bool)
      ensures Shows(NewManager(
        rows, Env(maxParallel, keepaliveMin, keepaliveMax, 0, false, now, rootDone, successMessage)))
    {
      this.successMessage := successMessage;
      this.keepaliveMin, this.keepaliveMax, this.maxParallel := keepaliveMin, keepaliveMax, maxParallel;
      this.now, this.rootDone := now, rootDone;
      targets, order, jobs, keepalives, arbiters := map[], [], map[], map[], map[];
      currentProcesses, slotsInUse, nextEventID, nextAdhocRunID := 0, 0, 0, 0;
      channels, observers, runWG, shuttingDown, parallelChanged := [], {}, 0, false, 0;
      goroutines := [];
      new;
      hide Tables, CellsFor, OrderFor;
      LoadRows(rows);
    }

    // Time passes
    method Elapse(elapsed: nat, ghost s: State)
      requires Shows(s)
      modifies `now
      ensures Shows(s.(env := s.env.(now := s.env.now + elapsed)))
    {
      hide Observing, Tables, Counters;
      now := now + elapsed;
    }

    // The root context is cancelled
    method CancelRootContext(ghost s: State)
      requires Shows(s)
      modifies `rootDone
      ensures Shows(s.(env := s.env.(rootDone := true)))
    {
      hide Observing, Tables, Counters;
      rootDone := true;
    }
  }
}
