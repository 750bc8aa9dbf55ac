/**
 What runs come to: how a call begins and how its result is recorded, that a failed attempt is tried again and a
 success ends the run, and what starting a run and an ad-hoc request leave behind.
 */
module JobOutcomes {
  import opened Text
  import opened Streams
  import opened JobState
  import opened JobSteps
  import opened JobRegistry
  import opened JobApi
  import opened JobInvariant
  import opened JobRegistryKeeps
  import opened JobRuns
  import opened JobSafety
  import opened JobStarts

  // ---------------------------------------------------------------- a goroutine's steps, one after the other

  // From s to t goroutine i has come to w, its target to c and the pool to `pool`; all else is as it was, but for what
  // observers have been sent.
  predicate Comes(s: State, t: State, i: nat, c: Cell, w: Worker, pool: Pool)
    requires i < |s.workers|
  {
    && t.cells == s.cells[s.workers[i].key := c] && t.workers == s.workers[i := w]
    && t.pool == pool && t.env == s.env && t.order == s.order
  }

  lemma GoComes(s: Sound, i: nat, choice: Choice)
    requires Possible(s, Go(i, choice))
    ensures var e := Work(s.cells[s.workers[i].key], s.workers[i], i, s.pool, s.env, choice);
      Comes(s, Apply(s, Go(i, choice)), i, e.cell, e.worker, e.pool)
  {
    hide Core, Observed, Work, NoRepeats, Formed, Enabled, Snapshot, Publish;
    CoreListing(s);
  }

  lemma ComesOn(s: State, t: State, u: State, i: nat, c: Cell, w: Worker, pool: Pool, d: Cell, v: Worker, pool': Pool)
    requires i < |s.workers| && Comes(s, t, i, c, w, pool) && w.key == s.workers[i].key && Comes(t, u, i, d, v, pool')
    ensures Comes(s, u, i, d, v, pool')
  {
  }

  // Goroutine i works on k in this mode, and its run is the current one.
  predicate OnRun(s: State, i: nat, k: Key, mode: Owner) {
    && i < |s.workers| && !s.workers[i].pc.Done? && k in s.cells
    && s.workers[i].kind == mode && s.workers[i].key == k
    && (if mode == Queue then QueueCurrent(s.cells[k].job, s.workers[i])
        else KeepaliveCurrent(s.cells[k].keepalive, s.workers[i]))
  }

  // What is given back when a call ends.
  function CallEnded(pool: Pool): Pool {
    Pool(pool.slots - 1, pool.processes - 1, pool.changed + 1, pool.running)
  }

  function Freed(a: Arbiter): Arbiter {
    Arbiter(Nobody, 0, None, a.changed + 1)
  }

  // The runner returns and finishProcess runs: the result is carried along as it is, and slot and process are given
  // back.
  lemma ReturningComes(s: Sound, i: nat, k: Key, mode: Owner, result: Result)
    requires IsMode(mode) && OnRun(s, i, k, mode) && s.workers[i].pc == InRunner
    ensures var w := s.workers[i].(pc := Returned(result), results := s.workers[i].results + [result]);
      Comes(s, Apply(Apply(s, Go(i, Return(result))), Go(i, Proceed)), i, s.cells[k], w, CallEnded(s.pool))
  {
    hide Core, Observed, NoRepeats, Formed, Apply, QueueCurrent, KeepaliveCurrent;
    GoComes(s, i, Return(result));
    var t: Sound := Apply(s, Go(i, Return(result)));
    GuardsNeverBite(s, i);
    GoComes(t, i, Proceed);
    var w1 := s.workers[i].(pc := Finish(result), results := s.workers[i].results + [result]);
    ComesOn(s, t, Apply(t, Go(i, Proceed)), i, s.cells[k], w1, s.pool, s.cells[k], w1.(pc := Returned(result)),
            CallEnded(s.pool));
  }

  ghost function AfterCall(s: Sound, i: nat, result: Result): Sound {
    Apply(Apply(s, Go(i, Return(result))), Go(i, Proceed))
  }

  // ---------------------------------------------------------------- what a queue attempt comes to

  // What a current queue goroutine in a call knows.
  lemma QueueFacts(s: Sound, i: nat, k: Key)
    requires OnRun(s, i, k, Queue)
    ensures s.workers[i].verdict == Open && s.workers[i].handed == [] && s.cells[k].job.nextAttempt == None
    ensures HoldsTarget(s.workers[i]) ==>
      s.cells[k].arbiter.owner == Queue && s.cells[k].arbiter.ownerRunID == s.workers[i].runID
  {
    LiveFacts(s, i);
    hide Core, Observed;
  }

  // A success ends the run at once: the job has succeeded, its subscribers are handed over, the target is free. A
  // failure is carried on to be recorded, unless the context is done by then.
  lemma QueueOutcome(s: Sound, i: nat, k: Key, result: Result)
    requires OnRun(s, i, k, Queue) && s.workers[i].pc == InRunner
    ensures var t, c := Apply(AfterCall(s, i, result), Go(i, Proceed)), s.cells[k];
      && i < |t.workers| && k in t.cells && t.env == s.env && t.pool == CallEnded(s.pool)
      && (t.cells[k].job.state == Succeeded <==> result.success)
      && (t.workers[i].verdict == Delivered <==> result.success)
      && (result.success ==>
            && t.cells[k] == c.(arbiter := Freed(c.arbiter), job := c.job.(
                 state := Succeeded, finishedAt := Some(s.env.now), nextAttempt := None, lastError := "",
                 cancel := None, subscribers := map[]))
            && t.workers[i].handed == [c.job.subscribers] && t.workers[i].pc == Exit(false, false))
      && (!result.success ==>
            && t.cells[k] == c && OnRun(t, i, k, Queue)
            && t.workers[i].pc == if CtxDone(s.workers[i], s.env) then Cancel else Mark(result))
  {
    hide Core, Observed, NoRepeats, Formed, Apply;
    var t := AfterCall(s, i, result);
    ReturningComes(s, i, k, Queue, result);
    GoComes(t, i, Proceed);
    QueueFacts(s, i, k);
  }

  lemma KeepaliveFacts(s: Sound, i: nat, k: Key)
    requires OnRun(s, i, k, Keepalive)
    ensures s.workers[i].verdict == Open && s.cells[k].job.state != Running
    ensures HoldsTarget(s.workers[i]) ==>
      s.cells[k].arbiter.owner == Keepalive && s.cells[k].arbiter.ownerRunID == s.workers[i].runID
  {
    LiveFacts(s, i);
    hide Core, Observed;
  }

  // A failure is recorded, and the run goes on: still running and current, it lets go of the target and competes for it
  // again.
  lemma FailureIsRetried(s: Sound, i: nat, k: Key, result: Result)
    requires OnRun(s, i, k, Queue) && s.workers[i].pc == Mark(result)
    ensures var t, c := Apply(s, Go(i, Proceed)), s.cells[k];
      && OnRun(t, i, k, Queue) && t.workers[i] == s.workers[i].(pc := Claim) && t.pool == s.pool
      && t.cells[k] == c.(arbiter := Freed(c.arbiter), job := c.job.(lastError := result.error))
  {
    hide Core, Observed, NoRepeats, Formed, Apply;
    QueueFacts(s, i, k);
    GoComes(s, i, Proceed);
  }

  // ---------------------------------------------------------------- what a whole run has come to

  // A run that was delivered has called until it succeeded: as many results as calls, all failures but the last.
  lemma DeliveredIsEarned(s: Sound, i: nat)
    requires i < |s.workers| && s.workers[i].verdict == Delivered
    ensures var w, n := s.workers[i], |s.workers[i].results|;
      && w.kind == Queue && n > 0 && |w.calls| == n && w.results[n - 1].success
      && forall m :: 0 <= m < n - 1 ==> !w.results[m].success
  {
    assert FitsIn(s, i);
    hide Core, Observed;
  }

  // One that goes on has only failed so far, and shows the last error.
  lemma LastFailureIsShown(s: Sound, i: nat, k: Key)
    requires OnRun(s, i, k, Queue) && !Pending(s.workers[i]) && !s.workers[i].pc.Cancel?
    ensures var results := s.workers[i].results;
      && (forall n :: 0 <= n < |results| ==> !results[n].success)
      && s.cells[k].job.lastError == if results == [] then "" else results[|results| - 1].error
  {
    LiveFacts(s, i);
    hide Core, Observed;
  }

  // ---------------------------------------------------------------- what a keepalive request comes to

  // What the keepalive records of a result.
  function Filed(p: KeepaliveJob, result: Result, now: int): KeepaliveJob {
    if result.success then p.(lastSuccess := Some(now))
    else p.(lastFailure := Some(now), lastError := result.error)
  }

  lemma KeepaliveReturns(s: Sound, i: nat, k: Key, result: Result)
    requires OnRun(s, i, k, Keepalive) && s.workers[i].pc == InRunner
    ensures var t := Apply(AfterCall(s, i, result), Go(i, Proceed));
      && OnRun(t, i, k, Keepalive) && t.env == s.env && t.pool == CallEnded(s.pool) && t.cells[k] == s.cells[k]
      && t.workers[i].pc == if CtxDone(s.workers[i], s.env) then Cancel else Mark(result)
  {
    hide Core, Observed, NoRepeats, Formed, Apply;
    ReturningComes(s, i, k, Keepalive, result);
    GoComes(AfterCall(s, i, result), i, Proceed);
  }

  // A success and a failure are both recorded as what they are, and the next request is due after the sampled delay.
  lemma KeepaliveIsFiled(s: Sound, i: nat, k: Key, result: Result, delay: int)
    requires OnRun(s, i, k, Keepalive) && s.workers[i].pc == Mark(result)
    requires IsSample(delay, s.env.keepaliveMin, s.env.keepaliveMax)
    ensures var t, c := Apply(s, Go(i, Sampled(delay))), s.cells[k];
      && OnRun(t, i, k, Keepalive) && t.workers[i] == s.workers[i].(pc := Sleep) && t.pool == s.pool
      && t.cells[k] == c.(arbiter := Freed(c.arbiter), sampled := s.env.now, keepalive :=
           Filed(c.keepalive, result, s.env.now).(state := WaitingNext, nextRequest := Some(s.env.now + delay)))
  {
    hide Core, Observed, NoRepeats, Formed, Apply;
    KeepaliveFacts(s, i, k);
    GoComes(s, i, Sampled(delay));
  }

  // ---------------------------------------------------------------- cancelled runs

  // The target is free if the run had it, and whoever waits for it is told.
  function LetGo(a: Arbiter, mode: Owner, runID: nat): Arbiter {
    var b := if a.owner == mode && a.ownerRunID == runID then Freed(a) else a;
    b.(changed := b.changed + 1)
  }

  lemma CancelFacts(s: Sound, i: nat, k: Key, mode: Owner)
    requires IsMode(mode) && OnRun(s, i, k, mode) && s.workers[i].pc == Cancel
    ensures CtxDone(s.workers[i], s.env) && s.cells[k].job.nextAttempt == None
  {
    LiveFacts(s, i);
    hide Core, Observed;
  }

  // A run whose context is done records that it was stopped, and notifies nobody.
  lemma CancelIsRecorded(s: Sound, i: nat, k: Key, mode: Owner)
    requires IsMode(mode) && OnRun(s, i, k, mode) && s.workers[i].pc == Cancel
    ensures CtxDone(s.workers[i], s.env)
    ensures var t, c, now := Apply(s, Go(i, Proceed)), s.cells[k], Some(s.env.now);
      && i < |t.workers| && k in t.cells && t.pool == s.pool
      && t.workers[i] == s.workers[i].(pc := Exit(false, false), verdict := Abandoned)
      && t.cells[k].target == c.target && t.cells[k].arbiter == LetGo(c.arbiter, mode, s.workers[i].runID)
      && (mode == Queue ==>
            && t.cells[k].keepalive == c.keepalive
            && t.cells[k].job == c.job.(state := Stopped, finishedAt := now, cancel := None, subscribers := map[]))
      && (mode == Keepalive ==>
            && t.cells[k].job == c.job
            && t.cells[k].keepalive == c.keepalive.(
                 state := Off, stoppedAt := now, nextRequest := None, cancel := None))
  {
    hide Core, Observed, NoRepeats, Formed, Apply;
    CancelFacts(s, i, k, mode);
    GoComes(s, i, Proceed);
  }

  // ---------------------------------------------------------------- beginning a call

  lemma CallFacts(s: Sound, i: nat, k: Key, mode: Owner)
    requires IsMode(mode) && OnRun(s, i, k, mode)
    ensures s.cells[k].job.nextAttempt == None
    ensures mode == Queue ==> s.cells[k].job.attempts == |s.workers[i].calls|
    ensures mode == Keepalive ==>
      s.cells[k].keepalive.requests == |s.workers[i].calls| && s.cells[k].job.state != Running
  {
    LiveFacts(s, i);
    hide Core, Observed;
  }

  // With the target free and a slot to be had, a current run gets from its claim into the runner in three sections: the
  // call is counted and timed, and the runner is given the next number.
  lemma CallBegins(s: Sound, i: nat, k: Key, mode: Owner)
    requires IsMode(mode) && OnRun(s, i, k, mode) && s.workers[i].pc == Claim
    requires s.cells[k].arbiter.owner == Nobody && s.pool.slots < s.env.maxParallel
    ensures var go, c, now := Go(i, Proceed), s.cells[k], Some(s.env.now);
      var t := Apply(Apply(Apply(s, go), go), go);
      && OnRun(t, i, k, mode) && t.env == s.env
      && t.pool == s.pool.(slots := s.pool.slots + 1, processes := s.pool.processes + 1)
      && t.workers[i].pc == InRunner && t.workers[i].results == s.workers[i].results
      && t.workers[i].calls == s.workers[i].calls + [|s.workers[i].calls| + 1]
      && t.cells[k].arbiter == c.arbiter.(owner := mode, ownerRunID := s.workers[i].runID)
      && t.cells[k].target == c.target
      && (mode == Queue ==>
            && t.cells[k].keepalive == c.keepalive
            && t.cells[k].job == c.job.(attempts := c.job.attempts + 1, lastAttempt := now))
      && (mode == Keepalive ==>
            && t.cells[k].job == c.job
            && t.cells[k].keepalive == c.keepalive.(
                 state := Requesting, requests := c.keepalive.requests + 1, lastRequest := now, nextRequest := None))
  {
    hide Core, Observed, NoRepeats, Formed, Apply;
    CallFacts(s, i, k, mode);
    var t1: Sound := Apply(s, Go(i, Proceed));
    GoComes(s, i, Proceed);
    var t2: Sound := Apply(t1, Go(i, Proceed));
    GoComes(t1, i, Proceed);
    GoComes(t2, i, Proceed);
  }

  // A target that is free is a queue run's at once; a keepalive shows that it wants to call, and takes the target only
  // with its slot.
  lemma ClaimGetsThrough(s: Sound, i: nat, k: Key, mode: Owner)
    requires IsMode(mode) && OnRun(s, i, k, mode) && s.workers[i].pc == Claim && s.cells[k].arbiter.owner == Nobody
    ensures var t, c := Apply(s, Go(i, Proceed)), s.cells[k];
      && OnRun(t, i, k, mode) && t.pool == s.pool && t.workers[i] == s.workers[i].(pc := Slot)
      && (mode == Queue ==> t.cells[k] == c.(
            holder := i, arbiter := c.arbiter.(owner := Queue, ownerRunID := s.workers[i].runID)))
      && (mode == Keepalive ==> t.cells[k] == c.(keepalive := c.keepalive.(state := Requesting)))
  {
    hide Core, Observed, NoRepeats, Formed, Apply;
    CallFacts(s, i, k, mode);
    GoComes(s, i, Proceed);
  }

  lemma NeverBehindQueue(s: Sound, k: Key)
    requires k in s.cells
    ensures s.cells[k].keepalive.state != WaitingQueue
  {
    TargetFacts(s, k);
    hide Core, Observed;
  }

  // While somebody else has the target, a run waits for the arbiter; a keepalive shows that it wants to call.
  lemma ClaimIsBlocked(s: Sound, i: nat, k: Key, mode: Owner)
    requires IsMode(mode) && OnRun(s, i, k, mode) && s.workers[i].pc == Claim && s.cells[k].arbiter.owner != Nobody
    ensures var t, c := Apply(s, Go(i, Proceed)), s.cells[k];
      && OnRun(t, i, k, mode) && t.pool == s.pool
      && t.workers[i] == s.workers[i].(pc := ClaimWait(c.arbiter.changed))
      && t.cells[k] == if mode == Queue then c else c.(keepalive := c.keepalive.(state := Requesting))
  {
    hide Core, Observed, NoRepeats, Formed, Apply;
    CallFacts(s, i, k, mode);
    GoComes(s, i, Proceed);
    NeverBehindQueue(Apply(s, Go(i, Proceed)), k);
  }

  // So does everybody while there is no slot to be had.
  lemma SlotIsAwaited(s: Sound, i: nat)
    requires Live(s, i) && s.workers[i].pc == Slot && s.pool.slots >= s.env.maxParallel
    ensures var t := Apply(s, Go(i, Proceed));
      && t.workers == s.workers[i := s.workers[i].(pc := SlotWait(s.pool.changed))]
      && t.pool == s.pool && t.cells == s.cells
  {
    hide Core, Observed, NoRepeats, Formed, Apply;
    GoComes(s, i, Proceed);
    assert s.cells[s.workers[i].key := s.cells[s.workers[i].key]] == s.cells;
  }

  // Where a goroutine that waits goes on: back to what it waits for when it is woken, to its end when it gives up.
  function AfterWait(w: Worker, choice: Choice): PC {
    if choice == GiveUp then if w.kind == Adhoc then Exit(false, false) else Cancel
    else if w.pc.ClaimWait? then Claim
    else if w.pc.SlotWait? then Slot
    else if choice == Alarm then Claim
    else Sleep
  }

  lemma AdhocNeverClaims(s: Sound, i: nat)
    requires Live(s, i)
    ensures s.workers[i].kind == Adhoc ==> !s.workers[i].pc.ClaimWait? && !s.workers[i].pc.SleepWait?
  {
    LiveFacts(s, i);
    hide Core, Observed;
  }

  lemma WaitersGoOn(s: Sound, i: nat, choice: Choice)
    requires Possible(s, Go(i, choice)) && Blocked(s.workers[i])
    ensures choice == GiveUp ==> CtxDone(s.workers[i], s.env)
    ensures var t := Apply(s, Go(i, choice));
      && t.workers == s.workers[i := s.workers[i].(pc := AfterWait(s.workers[i], choice))]
      && t.pool == s.pool && t.cells == s.cells
  {
    hide Core, Observed, NoRepeats, Formed, Apply;
    AdhocNeverClaims(s, i);
    GoComes(s, i, choice);
    assert s.cells[s.workers[i].key := s.cells[s.workers[i].key]] == s.cells;
  }

  // ---------------------------------------------------------------- starting a run

  function OtherMode(mode: Owner): Owner {
    if mode == Queue then Keepalive else Queue
  }

  lemma NobodyIsCounted(s: Sound, k: Key, mode: Owner)
    requires IsMode(mode) && k in s.cells
    ensures WorkersOn(s.cells[k], mode) >= 0
    ensures WorkersOn(s.cells[k], mode) == 0 <==>
      forall i :: 0 <= i < |s.workers| && !s.workers[i].pc.Done? && s.workers[i].key == k ==> s.workers[i].kind != mode
  {
    hide Core, Observed, Shaped;
    TargetFacts(s, k);
    var m := WorkersOf(mode, k);
    if Sum(s.workers, m) > 0 { var i := SumWitness(s.workers, m); }
    forall i | 0 <= i < |s.workers| ensures Weight(m, s.workers[i]) <= Sum(s.workers, m) {
      SumAtLeast(s.workers, i, m);
    }
  }

  // A start succeeds exactly on a target the manager has, outside shutdown, with both modes off and no goroutine of the
  // other mode left.
  lemma StartsExactlyWhen(s: Sound, k: Key, mode: Owner, sub: Subscriber)
    requires IsMode(mode)
    ensures Starts(s, StartStep(k, mode, sub), k, mode) <==>
      && k in s.cells && !s.env.shuttingDown && !Active(s.cells[k], Queue) && !Active(s.cells[k], Keepalive)
      && forall i :: 0 <= i < |s.workers| && !s.workers[i].pc.Done? && s.workers[i].key == k ==>
           s.workers[i].kind != OtherMode(mode)
  {
    hide Core, Observed;
    if k in s.cells { NobodyIsCounted(s, k, OtherMode(mode)); }
  }

  // The record of a queue run that has just been started, and of a keepalive.
  function StartedJob(j: Job, n: nat, now: int, subscribers: Subscribers): Job {
    Job(Running, 0, Some(now), None, None, None, "", j.runID + 1, Some(n), subscribers, j.workers + 1)
  }

  function StartedKeepalive(p: KeepaliveJob, n: nat, now: int): KeepaliveJob {
    KeepaliveJob(
      Requesting, 0, Some(now), None, None, None, None, None, "", p.runID + 1, Some(n), p.schedule, p.workers + 1)
  }

  // A start begins a new record: nothing is left of an earlier run, and the only subscriber is the one who asked.
  lemma StartBeginsAfresh(s: Sound, k: Key, mode: Owner, sub: Subscriber)
    requires IsMode(mode) && Starts(s, StartStep(k, mode, sub), k, mode)
    ensures var t, n := Apply(s, StartStep(k, mode, sub)), |s.workers|;
      var subscribers := if sub.recipient == "" then map[] else map[SubscriberKey(sub) := sub];
      && k in s.cells && |t.workers| == n + 1 && t.workers[..n] == s.workers && t.env == s.env
      && t.pool == s.pool.(running := s.pool.running + 1) && t.order == s.order
      && var c := s.cells[k];
      && t.cells == s.cells[k := c.(
           arbiter := c.arbiter.(changed := c.arbiter.changed + 1),
           job := if mode == Queue then StartedJob(c.job, n, s.env.now, subscribers) else c.job,
           keepalive := if mode == Keepalive then StartedKeepalive(c.keepalive, n, s.env.now) else c.keepalive)]
      && t.workers[n] == Worker(
           mode, k, if mode == Queue then c.job.runID + 1 else c.keepalive.runID + 1, false, Claim, [], [],
           if mode == Queue then subscribers else map[], [], Open)
  {
    hide Core, Observed, NoRepeats, Formed, Snapshot, Publish;
    CoreListing(s);
    TargetFacts(s, k);
  }

  // ---------------------------------------------------------------- ad-hoc requests

  lemma IdleIsEmpty(s: Sound, k: Key)
    requires k in s.cells
    ensures Busy(s.cells[k]) <==> !NoneWorksOn(s.workers, k)
  {
    hide Core, Observed, Busy;
    BusyMeansWorkedOn(s, k);
  }

  // A request is let in exactly if the target is there, nobody works on it, and the manager goes on.
  lemma ReservesExactlyWhen(s: Sound, id: int)
    ensures Formed(s)
    ensures ReserveOutcome(s, id) == Reserved <==>
      && !s.env.shuttingDown && !s.env.rootDone
      && exists k <- s.cells :: s.cells[k].target.id == id && NoneWorksOn(s.workers, k)
  {
    hide Core, Observed, Normalize, InOrder, NoRepeats, Busy, NoneWorksOn;
    CoreListing(s);
    CoreIsRegistered(s);
    forall k <- s.cells ensures Busy(s.cells[k]) <==> !NoneWorksOn(s.workers, k) { IdleIsEmpty(s, k); }
  }

  // Then it owns the target, and a goroutine of its own is on its way to a slot.
  lemma ReserveTakesTarget(s: Sound, id: int)
    requires Formed(s) && ReserveOutcome(s, id) == Reserved
    ensures var k, t, n := KeyOf(s.cells, s.order, id), Apply(s, Reserve(id)), |s.workers|;
      && k.Some? && k.value in s.cells && |t.workers| == n + 1 && t.workers[..n] == s.workers
      && t.pool == s.pool.(running := s.pool.running + 1)
      && var c, run := s.cells[k.value], s.env.nextAdhocRunID + 1;
      && t.env == s.env.(nextAdhocRunID := run)
      && t.cells == s.cells[k.value := c.(holder := n, arbiter := Arbiter(Adhoc, run, Some(n), c.arbiter.changed))]
      && t.workers[n] == Worker(Adhoc, k.value, run, false, Slot, [], [], map[], [], Open)
  {
    hide Core, Observed, NoRepeats, Snapshot, Publish, KeyOf, Busy;
    CoreListing(s);
  }

  lemma AdhocFacts(s: Sound, i: nat)
    requires i < |s.workers| && s.workers[i].kind == Adhoc && !s.workers[i].pc.Done?
    ensures Live(s, i)
    ensures s.cells[s.workers[i].key].arbiter.owner == Adhoc
    ensures s.cells[s.workers[i].key].arbiter.ownerRunID == s.workers[i].runID
  {
    LiveFacts(s, i);
    hide Core, Observed;
  }

  // With a slot to be had, the request gets into the runner in two sections.
  lemma AdhocGetsIn(s: Sound, i: nat)
    requires i < |s.workers| && s.workers[i].kind == Adhoc && s.workers[i].pc == Slot
    requires s.pool.slots < s.env.maxParallel
    ensures var t := Apply(Apply(s, Go(i, Proceed)), Go(i, Proceed));
      && t.workers == s.workers[i := s.workers[i].(pc := InRunner)] && t.cells == s.cells
      && t.pool == s.pool.(slots := s.pool.slots + 1, processes := s.pool.processes + 1)
  {
    hide Core, Observed, NoRepeats, Formed, Apply;
    AdhocFacts(s, i);
    var t: Sound := Apply(s, Go(i, Proceed));
    GoComes(s, i, Proceed);
    GoComes(t, i, Proceed);
    assert s.cells[s.workers[i].key := s.cells[s.workers[i].key]] == s.cells;
  }

  // When the runner returns it gives back process, slot and target, and is gone.
  lemma AdhocGetsOut(s: Sound, i: nat, k: Key, result: Result)
    requires i < |s.workers| && s.workers[i].kind == Adhoc && s.workers[i].pc == InRunner && s.workers[i].key == k
    ensures var t := Apply(Apply(s, Go(i, Return(result))), Go(i, Proceed));
      && k in s.cells && i < |t.workers| && t.workers[i].pc == Done
      && t.workers[i].results == s.workers[i].results + [result]
      && t.pool == Pool(s.pool.slots - 1, s.pool.processes - 1, s.pool.changed + 1, s.pool.running - 1)
      && t.cells == s.cells[k := s.cells[k].(arbiter := Freed(s.cells[k].arbiter))]
  {
    hide Core, Observed, NoRepeats, Formed, Apply;
    AdhocFacts(s, i);
    GuardsNeverBite(s, i);
    var t: Sound := Apply(s, Go(i, Return(result)));
    GoComes(s, i, Return(result));
    GoComes(t, i, Proceed);
    assert s.cells[k := s.cells[k]] == s.cells;
  }

  // One that finds its context done once it has its slot does not call the runner.
  lemma CancelledAdhocDoesNotCall(s: Sound, i: nat)
    requires i < |s.workers| && s.workers[i].kind == Adhoc && s.workers[i].pc == Begin && CtxDone(s.workers[i], s.env)
    ensures var t := Apply(s, Go(i, SawCancelled));
      t.workers == s.workers[i := s.workers[i].(pc := Exit(true, false))] && t.pool == s.pool && t.cells == s.cells
  {
    hide Core, Observed, NoRepeats, Formed, Apply;
    AdhocFacts(s, i);
    GoComes(s, i, SawCancelled);
  }

  lemma AdhocStages(s: Sound, i: nat)
    requires Live(s, i) && s.workers[i].kind == Adhoc
    ensures var pc := s.workers[i].pc; pc.Slot? || pc.SlotWait? || pc.Begin? || pc.InRunner? || pc.Exit?
  {
    LiveFacts(s, i);
    hide Core, Observed;
  }

  // It is done only when the runner has returned or its context is done.
  lemma AdhocEndsForAReason(s: Sound, i: nat, choice: Choice)
    requires Possible(s, Go(i, choice)) && s.workers[i].kind == Adhoc && !s.workers[i].pc.Exit?
    ensures i < |Apply(s, Go(i, choice)).workers|
    ensures Apply(s, Go(i, choice)).workers[i].pc.Exit? ==>
      s.workers[i].pc.InRunner? || CtxDone(s.workers[i], s.env)
  {
    hide Core, Observed, NoRepeats, Formed, Apply;
    AdhocFacts(s, i);
    AdhocStages(s, i);
    GoComes(s, i, choice);
  }

  // The caller of an ad-hoc request hangs up: that cancels its context, and nothing else happens.
  lemma HangingUpCancels(s: Sound, i: nat)
    requires i < |s.workers| && s.workers[i].kind == Adhoc
    ensures Apply(s, HangUp(i)) == s.(workers := s.workers[i := s.workers[i].(cancelled := true)])
  {
    hide Core, Observed, NoRepeats, Formed;
    CoreListing(s);
  }
}
