/** A keepalive keeps its interval: between two of its calls lies at least what was sampled when the first one ended. */
module JobSchedule {
  import opened Text
  import opened Targets
  import opened Streams
  import opened JobState
  import opened JobSteps
  import opened JobRegistry
  import opened JobApi
  import opened JobInvariant
  import opened JobFrame
  import opened JobKeeps
  import opened JobApiKeeps
  import opened JobRegistryKeeps
  import opened JobRuns
  import opened JobSafety
  import opened JobHistory
  import opened JobDrain
  import opened JobOutcomes
  import opened JobEndings

  // ---------------------------------------------------------------- a goroutine that waits

  lemma TimerFacts(s: Sound, i: nat, k: Key)
    requires OnRun(s, i, k, Keepalive) && s.workers[i].pc.SleepWait?
    ensures s.workers[i].pc.schedule <= s.cells[k].keepalive.schedule
    ensures s.workers[i].pc.schedule == s.cells[k].keepalive.schedule ==>
      s.cells[k].keepalive.nextRequest == Some(s.workers[i].pc.at)
  {
    LiveFacts(s, i);
    hide Core, Observed;
  }

  // Before the request is due, a current keepalive that waits goes on towards its next call only if it is asleep with a
  // timer that has fired all the same. That timer is an older one, and its schedule channel has been closed.
  lemma OnlyAStaleTimerFiresEarly(s: Sound, i: nat, k: Key, choice: Choice)
    requires OnRun(s, i, k, Keepalive) && (s.workers[i].pc.Sleep? || s.workers[i].pc.SleepWait?)
    requires Possible(s, Go(i, choice))
    requires s.cells[k].keepalive.nextRequest.Some? && s.env.now < s.cells[k].keepalive.nextRequest.value
    ensures var w, v, p := s.workers[i], Apply(s, Go(i, choice)).workers[i], s.cells[k].keepalive;
      && (v.pc.Sleep? || v.pc.SleepWait? || v.pc.Cancel? || v.pc.Claim?)
      && (v.pc.Claim? ==> w.pc.SleepWait? && choice == Alarm && w.pc.at <= s.env.now && w.pc.schedule < p.schedule)
      && (v.pc.SleepWait? ==> v.pc == SleepWait(p.nextRequest.value, p.schedule))
  {
    hide Core, Observed, NoRepeats, Formed, Apply;
    GoComes(s, i, choice);
    if s.workers[i].pc.SleepWait? { TimerFacts(s, i, k); }
  }

  // Once the request is due, or when there is none, it goes on to its call; until then it goes to sleep.
  lemma DueIsClaimed(s: Sound, i: nat, k: Key)
    requires OnRun(s, i, k, Keepalive) && s.workers[i].pc == Sleep
    ensures var t, p := Apply(s, Go(i, Proceed)), s.cells[k].keepalive;
      && OnRun(t, i, k, Keepalive) && t.cells == s.cells && t.pool == s.pool
      && (t.workers[i] == s.workers[i].(pc := Claim) <==> p.nextRequest.None? || p.nextRequest.value <= s.env.now)
      && (p.nextRequest.Some? && s.env.now < p.nextRequest.value ==>
            t.workers[i] == s.workers[i].(pc := SleepWait(p.nextRequest.value, p.schedule)))
  {
    hide Core, Observed, NoRepeats, Formed, Apply;
    GoComes(s, i, Proceed);
    assert s.cells[k := s.cells[k]] == s.cells;
  }

  // Goroutine i of k waits for the request that is due at this instant.
  predicate WaitsFor(s: State, i: nat, k: Key, due: int) {
    && OnRun(s, i, k, Keepalive) && s.cells[k].keepalive.nextRequest == Some(due)
    && (s.workers[i].pc.Sleep? || (s.workers[i].pc.SleepWait? && s.workers[i].pc.at == due))
  }

  // It will not call any more.
  predicate GoesNoFurther(s: State, i: nat) {
    i < |s.workers| && s.workers[i].kind == Keepalive && (Ended(s, i) || s.workers[i].pc.Cancel?)
  }

  // Its next call has not begun, or is due by now.
  predicate OnTime(s: State, i: nat, k: Key, due: int, calls: seq<nat>) {
    || due <= s.env.now
    || (i < |s.workers| && s.workers[i].calls == calls && (WaitsFor(s, i, k, due) || GoesNoFurther(s, i)))
  }

  // ---------------------------------------------------------------- what its own steps do

  lemma WaitingGoes(s: Sound, i: nat, k: Key, due: int, choice: Choice)
    requires WaitsFor(s, i, k, due) && Possible(s, Go(i, choice))
    ensures OnTime(Apply(s, Go(i, choice)), i, k, due, s.workers[i].calls)
  {
    hide Core, Observed, NoRepeats, Formed, Apply;
    GoComes(s, i, choice);
  }

  // A run that has not ended is the current one.
  lemma OpenIsCurrent(s: Sound, i: nat)
    requires i < |s.workers| && !Ended(s, i) && s.workers[i].kind == Keepalive
    ensures OnRun(s, i, s.workers[i].key, Keepalive)
  {
    assert FitsIn(s, i);
    hide Core, Observed;
  }

  lemma EndingGoes(s: Sound, i: nat, choice: Choice)
    requires GoesNoFurther(s, i) && !Ended(s, i) && Possible(s, Go(i, choice))
    ensures var t := Apply(s, Go(i, choice)); GoesNoFurther(t, i) && t.workers[i].calls == s.workers[i].calls
  {
    hide Core, Observed, NoRepeats, Formed, Apply;
    OpenIsCurrent(s, i);
    CancelIsRecorded(s, i, s.workers[i].key, Keepalive);
    GoComes(s, i, choice);
  }

  // ---------------------------------------------------------------- what others do to the schedule

  // Nothing else is done to k's keepalive but to turn it off.
  predicate LeftOrOff(s: State, t: State, k: Key) {
    k in s.cells && k in t.cells ==>
      t.cells[k].keepalive == s.cells[k].keepalive || t.cells[k].keepalive.state == Off
  }

  lemma StopLeavesOrOff(s: State, k: Key, l: Key)
    requires Formed(s)
    ensures LeftOrOff(s, StopQueue(s, k), l) && LeftOrOff(s, StopKeepalive(s, k), l) && LeftOrOff(s, StopAdhoc(s, k), l)
    ensures StopQueue(s, k).cells.Keys == StopKeepalive(s, k).cells.Keys == StopAdhoc(s, k).cells.Keys == s.cells.Keys
  {
    hide JobStopped;
  }

  lemma PrepareLeavesOrOff(s: State, key: Key, mode: Owner, k: Key)
    requires Formed(s)
    ensures LeftOrOff(s, PrepareMode(s, key, mode).0, k)
  {
    hide StopQueue, StopKeepalive, StopAdhoc, Snapshot, Publish, Busy;
    if !PrepareRefused(s, key, mode) {
      StopLeavesOrOff(s, key, k);
      StopLeavesOrOff(StopAdhoc(s, key), key, k);
    }
  }

  lemma StopIDLeavesOrOff(s: State, id: int, k: Key)
    requires Core(s) && Formed(s)
    ensures LeftOrOff(s, StopByID(s, id), k)
  {
    hide Core, Snapshot, Publish, StopTarget, Busy, Shaped;
    var key := KeyOf(s.cells, s.order, id);
    if key.Some? {
      CellFacts(s, key.value);
      StopTargetHalts(s, key.value);
    }
  }

  lemma StopKeysLeavesOrOff(s: Sound, keys: seq<Key>, k: Key)
    ensures LeftOrOff(s, Apply(s, StopKeys(keys)), k)
  {
    hide IsSound, Apply, Draining;
    StopIsExact(s, keys);
  }

  lemma CallLeavesOrOff(s: State, step: Step, k: Key)
    requires Formed(s) && NoRepeats(s.order) && Possible(s, step) && k in s.cells && s.cells[k].keepalive.state != Off
    requires !step.Go? && !step.StopKeys? && !step.StopID? && !step.Prepare? && !step.Settings?
    requires step.Update? ==> k in Next(s, step).cells ==> Next(s, step).cells[k] == s.cells[k]
    ensures LeftOrOff(s, Next(s, step), k)
  {
    hide NoRepeats, Snapshot, Publish, SortTargets, Without, FreshID, AreSamples, KeyOf, Listed, Busy, WithSubscriber,
         WellFormed, Normalize, UpdateTarget;
  }

  // An update of another target leaves a busy one alone.
  lemma UpdateLeavesBusy(s: State, id: int, target: Target, k: Key)
    requires Core(s) && Formed(s) && NoRepeats(s.order) && k in s.cells && Busy(s.cells[k])
    ensures k in UpdateTarget(s, id, target).cells && UpdateTarget(s, id, target).cells[k] == s.cells[k]
  {
    hide Core, Snapshot, Publish, SortTargets, Renamed, NoRepeats, Busy, Normalize, OrderRenamed;
    if UpdateOutcome(s, id, target.name) == Committed {
      var key, newKey := KeyOf(s.cells, s.order, id).value, Normalize(target.name);
      if newKey in s.cells { IDIsUnique(s, newKey, key); }
      assert CellsRenamed(s.cells, key, newKey, target)[k] == s.cells[k];
    }
  }

  lemma WorkLeavesSchedule(c: Cell, w: Worker, i: nat, pool: Pool, env: Env, choice: Choice)
    requires Enabled(c, w, pool, env, choice)
    ensures Work(c, w, i, pool, env, choice).cell.keepalive.schedule == c.keepalive.schedule
  {
  }

  lemma CancelIsOwn(s: Sound, i: nat, k: Key)
    requires OnRun(s, i, k, Keepalive)
    ensures s.cells[k].keepalive.cancel == Some(i)
  {
    LiveFacts(s, i);
    hide Core, Observed;
  }

  // Another goroutine does not touch the next request of a run that is current.
  lemma GoLeavesNextRequest(s: Sound, j: nat, choice: Choice, i: nat, k: Key)
    requires OnRun(s, i, k, Keepalive) && i != j && Possible(s, Go(j, choice))
    ensures var t := Apply(s, Go(j, choice));
      k in t.cells && t.cells[k].keepalive.nextRequest == s.cells[k].keepalive.nextRequest
  {
    hide Core, Observed, Around, NoRepeats, Formed, Apply, Work, Enabled, Counted, WorkerOK, Shaped;
    GoComes(s, j, choice);
    LiveFacts(s, j);
    CancelIsOwn(s, i, k);
    var w, c := s.workers[j], s.cells[s.workers[j].key];
    WorkLegal(c, w, j, s.workers, s.pool, s.env, choice);
    WorkLeavesSchedule(c, w, j, s.pool, s.env, choice);
  }

  lemma NextLeavesOrOff(s: State, step: Step, k: Key)
    requires Core(s) && Formed(s) && NoRepeats(s.order) && Possible(s, step)
    requires k in s.cells && s.cells[k].keepalive.state != Off
    requires !step.Go? && !step.StopKeys? && !step.Settings?
    ensures LeftOrOff(s, Next(s, step), k)
  {
    hide Core, NoRepeats, Formed, PrepareMode, StopByID, UpdateTarget, LeftOrOff;
    match step
    case Prepare(key, mode) => PrepareLeavesOrOff(s, key, mode, k);
    case StopID(id) => StopIDLeavesOrOff(s, id, k);
    case Update(id, target) => UpdateLeavesBusy(s, id, target, k); CallLeavesOrOff(s, step, k);
    case _ => hide Next; CallLeavesOrOff(s, step, k);
  }

  // Whoever else takes a step, other than UpdateSettings, the request stays due when it was as long as the run is
  // current.
  lemma OthersLeaveNextRequest(s: Sound, step: Step, i: nat, k: Key)
    requires OnRun(s, i, k, Keepalive) && OnRun(Apply(s, step), i, k, Keepalive)
    requires !step.Settings? && !(step.Go? && step.i == i)
    ensures Apply(s, step).cells[k].keepalive.nextRequest == s.cells[k].keepalive.nextRequest
  {
    hide Core, Observed, NoRepeats, Formed, PrepareMode, StopByID, Stop, Next, UpdateTarget;
    CoreListing(s);
    if !Possible(s, step) { return; }
    match step
    case Go(j, choice) => GoLeavesNextRequest(s, j, choice, i, k);
    case StopKeys(keys) => StopKeysLeavesOrOff(s, keys, k);
    case _ => NextLeavesOrOff(s, step, k);
  }

  // ---------------------------------------------------------------- over a run

  lemma TimeGoesOn(s: Sound, step: Step)
    ensures s.env.now <= Apply(s, step).env.now
  {
    hide Core, Observed, Snapshot, Publish, NoRepeats, FreshID, AreSamples, Enabled, Work, Formed, WellFormed, KeyOf,
         SortTargets, StopAll, Renamed, Without, Normalize, Busy, Listed, WithSubscriber;
    CoreListing(s);
    if step.StopKeys? { StopAllLeavesPool(s, step.keys); }
  }

  lemma NothingHappens(s: Sound, step: Step)
    requires !Possible(s, step)
    ensures Apply(s, step) == s
  {
  }

  lemma WaiterStaysOnTime(s: Sound, step: Step, i: nat, k: Key, due: int)
    requires WaitsFor(s, i, k, due) && !step.Settings?
    ensures OnTime(Apply(s, step), i, k, due, s.workers[i].calls)
  {
    hide IsSound, Apply;
    if step.Go? && step.i == i {
      if Possible(s, step) { WaitingGoes(s, i, k, due, step.choice); } else { NothingHappens(s, step); }
    } else {
      OthersLeaveAside(s, step, i);
      var t: Sound := Apply(s, step);
      if !Ended(t, i) {
        OpenIsCurrent(t, i);
        OthersLeaveNextRequest(s, step, i, k);
      }
    }
  }

  lemma EnderStaysOnTime(s: Sound, step: Step, i: nat)
    requires GoesNoFurther(s, i)
    ensures var t := Apply(s, step);
      i < |t.workers| && GoesNoFurther(t, i) && t.workers[i].calls == s.workers[i].calls
  {
    hide IsSound, Apply;
    if Ended(s, i) { EndedRests(s, step, i); }
    else if step.Go? && step.i == i {
      if Possible(s, step) { EndingGoes(s, i, step.choice); } else { NothingHappens(s, step); }
    } else { OthersLeaveAside(s, step, i); }
  }

  lemma StaysOnTime(s: Sound, step: Step, i: nat, k: Key, due: int, calls: seq<nat>)
    requires OnTime(s, i, k, due, calls) && !step.Settings?
    ensures OnTime(Apply(s, step), i, k, due, calls)
  {
    hide IsSound, Apply, Possible, WaitsFor, GoesNoFurther, Ended;
    TimeGoesOn(s, step);
    if s.env.now < due {
      if WaitsFor(s, i, k, due) { WaiterStaysOnTime(s, step, i, k, due); }
      else { EnderStaysOnTime(s, step, i); }
    }
  }

  lemma {:induction false} StaysOnTimeForLong(s: Sound, steps: seq<Step>, i: nat, k: Key, due: int, calls: seq<nat>)
    requires OnTime(s, i, k, due, calls) && forall step <- steps :: !step.Settings?
    ensures OnTime(Run(s, steps), i, k, due, calls)
  {
    hide IsSound, Apply, OnTime;
    if steps != [] {
      var front, last := steps[..|steps| - 1], steps[|steps| - 1];
      assert last in steps && forall step <- front :: step in steps;
      StaysOnTimeForLong(s, front, i, k, due, calls);
      StaysOnTime(Run(s, front), last, i, k, due, calls);
    }
  }

  // A keepalive request that ends now is followed by another one no earlier than keepaliveMin from now, in any run in
  // which the settings are not changed meanwhile.
  lemma IntervalIsKept(s: Sound, i: nat, k: Key, result: Result, delay: int, steps: seq<Step>)
    requires OnRun(s, i, k, Keepalive) && s.workers[i].pc == Mark(result)
    requires IsSample(delay, s.env.keepaliveMin, s.env.keepaliveMax)
    requires forall step <- steps :: !step.Settings?
    ensures var t := Run(Apply(s, Go(i, Sampled(delay))), steps);
      && i < |t.workers|
      && (t.workers[i].calls != s.workers[i].calls ==> s.env.now + delay <= t.env.now)
      && delay >= s.env.keepaliveMin
  {
    hide IsSound, Apply, Run;
    KeepaliveIsFiled(s, i, k, result, delay);
    var u: Sound := Apply(s, Go(i, Sampled(delay)));
    StaysOnTimeForLong(u, steps, i, k, s.env.now + delay, s.workers[i].calls);
    WorkersStay(u, steps, i);
  }

  // ---------------------------------------------------------------- new settings

  lemma WaiterIsWaiting(s: Sound, i: nat, k: Key)
    requires OnRun(s, i, k, Keepalive) && (s.workers[i].pc.Sleep? || s.workers[i].pc.SleepWait?)
    ensures s.cells[k].keepalive.state == WaitingNext
  {
    LiveFacts(s, i);
    hide Core, Observed;
  }

  lemma SettingsTakeNoTime(s: Sound, step: Step)
    requires step.Settings? && Possible(s, step)
    ensures Apply(s, step).env.now == s.env.now
  {
    hide Core, Observed, NoRepeats, Snapshot, Publish, AreSamples, CellsAfter;
    CoreListing(s);
  }

  lemma WaiterHasRequest(c: Cell, k: Key, ws: seq<Worker>, env: Env)
    requires Shaped(c, k, ws, env)
    ensures c.keepalive.state == WaitingNext ==> c.keepalive.nextRequest.Some?
  {
  }

  // New intervals resample every keepalive that waits, from this instant, and wake it; nothing else is touched.
  lemma SettingsResample(s: Sound, step: Step, k: Key)
    requires step.Settings? && Possible(s, step) && k in s.cells
    ensures var t, c := Apply(s, step), s.cells[k];
      var news := step.minimum != s.env.keepaliveMin || step.maximum != s.env.keepaliveMax;
      && k in t.cells && t.workers == s.workers
      && (!(news && c.keepalive.state == WaitingNext) ==> t.cells[k] == c)
      && (news && c.keepalive.state == WaitingNext ==>
            && t.cells[k] == c.(sampled := s.env.now, keepalive := c.keepalive.(
                 nextRequest := t.cells[k].keepalive.nextRequest, schedule := c.keepalive.schedule + 1))
            && t.cells[k].keepalive.nextRequest.Some?
            && IsSample(t.cells[k].keepalive.nextRequest.value - s.env.now, step.minimum, step.maximum))
  {
    hide Core, Observed, NoRepeats, Snapshot, Publish, Shaped;
    CoreListing(s);
    TargetFacts(s, k);
    WaiterHasRequest(s.cells[k], k, s.workers, s.env);
  }

  // What the interval is not promised against: a timer that has fired when the settings change is not called back. The
  // keepalive goes on to its call although the request is due later by now.
  lemma StaleTimerFires(s: Sound, i: nat, k: Key, step: Step)
    requires OnRun(s, i, k, Keepalive) && s.workers[i].pc.SleepWait? && s.workers[i].pc.at <= s.env.now
    requires step.Settings? && Possible(s, step) && 0 < step.minimum <= step.maximum
    requires step.minimum != s.env.keepaliveMin || step.maximum != s.env.keepaliveMax
    ensures var t := Apply(Apply(s, step), Go(i, Alarm));
      && OnRun(t, i, k, Keepalive) && t.workers[i].pc == Claim
      && t.cells[k].keepalive.nextRequest.Some? && t.cells[k].keepalive.nextRequest.value > t.env.now
  {
    hide Core, Observed, NoRepeats, Formed, Apply;
    SettingsResample(s, step, k);
    WaiterIsWaiting(s, i, k);
    SettingsTakeNoTime(s, step);
    GoComes(Apply(s, step), i, Alarm);
  }
}
