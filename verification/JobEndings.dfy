/** What a stop does and to whom, and why a run can end: by a success, a stop, or a context that is done. */
module JobEndings {
  import opened Text
  import opened Streams
  import opened JobState
  import opened JobSteps
  import opened JobRegistry
  import opened JobApi
  import opened JobInvariant
  import opened JobFrame
  import opened JobApiKeeps
  import opened JobRegistryKeeps
  import opened JobRuns
  import opened JobSafety
  import opened JobHistory
  import opened JobDrain

  // ---------------------------------------------------------------- what a stop does

  // The records of a target that has been stopped, by what they were before: a mode that was on is off from now on, its
  // subscribers and its next request are gone, and the rest of the record stands. Nobody is driven off the target.
  predicate Halted(c: Cell, d: Cell, now: int) {
    && d.target == c.target
    && d.job == c.job.(
         state := if c.job.state == Running then Stopped else c.job.state,
         finishedAt := if c.job.state == Running then Some(now) else c.job.finishedAt,
         subscribers := map[], cancel := None, runID := d.job.runID)
    && (c.job.state == Running ==> c.job.runID < d.job.runID)
    && d.keepalive == c.keepalive.(
         state := Off, stoppedAt := if c.keepalive.state != Off then Some(now) else c.keepalive.stoppedAt,
         nextRequest := if c.keepalive.state != Off then None else c.keepalive.nextRequest,
         cancel := None, runID := d.keepalive.runID)
    && (c.keepalive.state != Off ==> c.keepalive.runID < d.keepalive.runID)
    && d.arbiter == c.arbiter.(cancel := None, changed := d.arbiter.changed) && c.arbiter.changed <= d.arbiter.changed
    && c.job.runID <= d.job.runID && c.keepalive.runID <= d.keepalive.runID
  }

  // A goroutine that may have been told to end: what it does and where it is stays.
  predicate Told(w: Worker, v: Worker) {
    && v == w.(cancelled := v.cancelled, verdict := v.verdict) && (w.cancelled ==> v.cancelled)
    && (v.verdict != w.verdict ==> v.verdict == Abandoned)
  }

  lemma HaltedTwice(c: Cell, d: Cell, e: Cell, now: int)
    requires Halted(c, d, now) && Halted(d, e, now)
    ensures Halted(c, e, now)
  {
  }

  // Only k's entry changes.
  predicate OnlyAt(s: State, t: State, k: Key) {
    && t.cells.Keys == s.cells.Keys && t.env == s.env && |t.workers| == |s.workers|
    && forall l <- s.cells :: l != k ==> t.cells[l] == s.cells[l]
  }

  lemma StopQueueHalts(s: State, k: Key)
    requires Formed(s) && k in s.cells && Shaped(s.cells[k], k, s.workers, s.env)
    ensures OnlyAt(s, StopQueue(s, k), k)
    ensures var c, d := s.cells[k], StopQueue(s, k).cells[k];
      && d == c.(job := d.job, arbiter := c.arbiter.(changed := d.arbiter.changed))
      && c.arbiter.changed <= d.arbiter.changed && c.job.runID <= d.job.runID
      && (c.job.state == Running ==> c.job.runID < d.job.runID)
      && d.job == c.job.(
           state := if c.job.state == Running then Stopped else c.job.state,
           finishedAt := if c.job.state == Running then Some(s.env.now) else c.job.finishedAt,
           subscribers := map[], cancel := None, runID := d.job.runID)
  {
    hide IsRun, InWindow;
  }

  lemma StopKeepaliveHalts(s: State, k: Key)
    requires Formed(s) && k in s.cells && (s.cells[k].keepalive.state == Off ==> s.cells[k].keepalive.cancel == None)
    ensures OnlyAt(s, StopKeepalive(s, k), k)
    ensures var c, d := s.cells[k], StopKeepalive(s, k).cells[k];
      && d == c.(keepalive := d.keepalive, arbiter := c.arbiter.(changed := d.arbiter.changed))
      && c.arbiter.changed <= d.arbiter.changed && c.keepalive.runID <= d.keepalive.runID
      && (c.keepalive.state != Off ==> c.keepalive.runID < d.keepalive.runID)
      && d.keepalive == c.keepalive.(
           state := Off, stoppedAt := if c.keepalive.state != Off then Some(s.env.now) else c.keepalive.stoppedAt,
           nextRequest := if c.keepalive.state != Off then None else c.keepalive.nextRequest,
           cancel := None, runID := d.keepalive.runID)
  {
  }

  lemma StopAdhocHalts(s: State, k: Key)
    requires Formed(s) && k in s.cells && (s.cells[k].arbiter.cancel != None ==> s.cells[k].arbiter.owner == Adhoc)
    ensures OnlyAt(s, StopAdhoc(s, k), k)
    ensures StopAdhoc(s, k).cells[k] == s.cells[k].(arbiter := s.cells[k].arbiter.(cancel := None))
  {
  }

  lemma StopTargetHalts(s: State, k: Key)
    requires Formed(s) && k in s.cells && Shaped(s.cells[k], k, s.workers, s.env)
    ensures OnlyAt(s, StopTarget(s, k), k) && Halted(s.cells[k], StopTarget(s, k).cells[k], s.env.now)
  {
    hide StopQueue, StopKeepalive, StopAdhoc, Formed, IsRun, InWindow;
    StopQueueHalts(s, k);
    var s1 := StopQueue(s, k);
    StopKeepaliveHalts(s1, k);
    StopAdhocHalts(StopKeepalive(s1, k), k);
  }

  // The cancel functions a target holds are those of goroutines of its own.
  ghost predicate NamesOwn(s: State, k: Key) {
    k in s.cells ==>
      var c := s.cells[k];
      forall n: nat | c.job.cancel == Some(n) || c.keepalive.cancel == Some(n) || c.arbiter.cancel == Some(n) ::
        n < |s.workers| && s.workers[n].key == k
  }

  // Only goroutines of k have been told anything.
  predicate OnlyTold(s: State, t: State, k: Key) {
    && |t.workers| == |s.workers|
    && forall i :: 0 <= i < |s.workers| ==>
      if s.workers[i].key == k then Told(s.workers[i], t.workers[i]) else t.workers[i] == s.workers[i]
  }

  lemma OnlyToldOn(s: State, t: State, u: State, k: Key)
    requires OnlyTold(s, t, k) && OnlyTold(t, u, k)
    ensures OnlyTold(s, u, k)
  {
  }

  lemma StopQueueTells(s: State, k: Key)
    requires Formed(s) && NamesOwn(s, k)
    ensures OnlyTold(s, StopQueue(s, k), k) && NamesOwn(StopQueue(s, k), k)
  {
  }

  lemma StopKeepaliveTells(s: State, k: Key)
    requires Formed(s) && NamesOwn(s, k)
    ensures OnlyTold(s, StopKeepalive(s, k), k) && NamesOwn(StopKeepalive(s, k), k)
  {
  }

  lemma StopAdhocTells(s: State, k: Key)
    requires Formed(s) && NamesOwn(s, k)
    ensures OnlyTold(s, StopAdhoc(s, k), k) && NamesOwn(StopAdhoc(s, k), k)
  {
  }

  lemma ShapedNamesOwn(s: State, k: Key)
    requires k in s.cells && Shaped(s.cells[k], k, s.workers, s.env)
    ensures NamesOwn(s, k)
  {
  }

  lemma StopTargetTellsOwn(s: State, k: Key)
    requires Formed(s) && NamesOwn(s, k)
    ensures OnlyTold(s, StopTarget(s, k), k)
  {
    hide StopQueue, StopKeepalive, StopAdhoc, Formed, NamesOwn, OnlyTold;
    var s1 := StopQueue(s, k);
    var s2 := StopKeepalive(s1, k);
    StopQueueTells(s, k);
    StopKeepaliveTells(s1, k);
    StopAdhocTells(s2, k);
    OnlyToldOn(s, s1, s2, k);
    OnlyToldOn(s, s2, StopAdhoc(s2, k), k);
  }

  lemma UnknownIsLeft(s: State, k: Key)
    requires Formed(s) && k !in s.cells
    ensures StopTarget(s, k) == s
  {
  }

  lemma {:induction false} StopAllHalts(s: State, keys: seq<Key>, k: Key)
    requires Core(s) && k in s.cells
    ensures Formed(s) && StopAll(s, keys).env == s.env && k in StopAll(s, keys).cells
    ensures if k in keys then Halted(s.cells[k], StopAll(s, keys).cells[k], s.env.now)
      else StopAll(s, keys).cells[k] == s.cells[k]
  {
    hide Core, StopTarget, Shaped, Halted, Formed;
    CoreFormed(s);
    if keys != [] {
      var front, last := keys[..|keys| - 1], keys[|keys| - 1];
      assert keys == front + [last];
      var t := StopAll(s, front);
      StopAllHalts(s, front, k);
      StopAllKeeps(s, front);
      StopTargetLeavesPool(t, last);
      if last in t.cells {
        CellFacts(t, last);
        StopTargetHalts(t, last);
        if k == last && k in front { HaltedTwice(s.cells[k], t.cells[k], StopTarget(t, last).cells[k], s.env.now); }
      } else { UnknownIsLeft(t, last); }
    }
  }

  lemma {:induction false} StopAllTellsOnly(s: State, keys: seq<Key>, i: nat)
    requires Core(s) && i < |s.workers|
    ensures Formed(s) && |StopAll(s, keys).workers| == |s.workers|
    ensures if s.workers[i].key in keys then Told(s.workers[i], StopAll(s, keys).workers[i])
      else StopAll(s, keys).workers[i] == s.workers[i]
  {
    hide Core, StopTarget, Shaped, Formed;
    CoreFormed(s);
    if keys != [] {
      var front, last := keys[..|keys| - 1], keys[|keys| - 1];
      assert keys == front + [last];
      var t := StopAll(s, front);
      StopAllTellsOnly(s, front, i);
      StopAllKeeps(s, front);
      if last in t.cells {
        CellFacts(t, last);
        ShapedNamesOwn(t, last);
        StopTargetTellsOwn(t, last);
      } else { UnknownIsLeft(t, last); }
    }
  }

  lemma StopKeysIsStopAll(s: Sound, keys: seq<Key>)
    ensures Formed(s)
    ensures var t, u := Apply(s, StopKeys(keys)), StopAll(s, keys);
      t.cells == u.cells && t.workers == u.workers && t.env == u.env && t.pool == u.pool && t.order == u.order
  {
    hide Core, Observed, NoRepeats, Formed, StopAll, Snapshot, Publish, AnyStoppable;
    CoreListing(s);
  }

  lemma StopAllKeys(s: State, keys: seq<Key>)
    requires Formed(s)
    ensures StopAll(s, keys).cells.Keys == s.cells.Keys
  {
  }

  lemma HaltedIsTold(c: Cell, d: Cell, now: int)
    requires Halted(c, d, now)
    ensures ToldToEnd(d)
  {
  }

  // A stop does this to the targets it names, and to no others: both modes are off and everybody on them is on the way
  // out, while the goroutines of other targets do not notice.
  lemma StopIsExact(s: Sound, keys: seq<Key>)
    ensures var t := Apply(s, StopKeys(keys));
      && t.cells.Keys == s.cells.Keys && |t.workers| == |s.workers| && t.env == s.env && t.pool == s.pool
      && (forall k <- s.cells ::
            if k in keys then Halted(s.cells[k], t.cells[k], s.env.now) && Draining(t, k, |t.workers|)
            else t.cells[k] == s.cells[k])
      && (forall i :: 0 <= i < |s.workers| ==>
            if s.workers[i].key in keys then Told(s.workers[i], t.workers[i]) else t.workers[i] == s.workers[i])
  {
    hide Core, Observed, NoRepeats, Formed, StopAll, Halted, Draining, Apply, Told;
    StopKeysIsStopAll(s, keys);
    StopAllLeavesPool(s, keys);
    StopAllKeys(s, keys);
    var t: Sound := Apply(s, StopKeys(keys));
    forall k <- s.cells
      ensures if k in keys then Halted(s.cells[k], t.cells[k], s.env.now) && Draining(t, k, |t.workers|)
        else t.cells[k] == s.cells[k]
    {
      StopAllHalts(s, keys, k);
      if k in keys {
        HaltedIsTold(s.cells[k], t.cells[k], s.env.now);
        StoppedDrains(t, k);
      }
    }
    forall i | 0 <= i < |s.workers|
      ensures if s.workers[i].key in keys then Told(s.workers[i], t.workers[i]) else t.workers[i] == s.workers[i]
    {
      StopAllTellsOnly(s, keys, i);
    }
  }

  // ---------------------------------------------------------------- why a run ends

  // The step is a stop of k: a caller's, an update's or a deletion's, or prepareMode's for the other mode.
  ghost predicate Halts(s: State, step: Step, k: Key, kind: Owner)
    requires Formed(s)
  {
    match step
    case StopKeys(keys) => k in keys
    case StopID(id) => KeyOf(s.cells, s.order, id) == Some(k)
    case Prepare(key, desired) => key == k && desired != kind && !s.env.shuttingDown
    case _ => false
  }

  // Why goroutine i's run can end with this step.
  ghost predicate Reason(s: State, t: State, step: Step, i: nat)
    requires Formed(s) && i < |s.workers| && i < |t.workers|
  {
    var w, v := s.workers[i], t.workers[i];
    match v.verdict
    case Open => false
    case Delivered => step == Go(i, Proceed) && w.kind == Queue && w.pc.Returned? && w.pc.result.success
    case Abandoned => (step == Go(i, Proceed) && w.pc == Cancel && CtxDone(w, s.env)) || Halts(s, step, w.key, w.kind)
  }

  lemma WorkEnds(c: Cell, w: Worker, i: nat, ws: seq<Worker>, pool: Pool, env: Env, choice: Choice)
    requires Around(c, w, i, ws, pool, env) && Enabled(c, w, pool, env, choice) && w.verdict == Open
    ensures var v := Work(c, w, i, pool, env, choice).worker;
      && (v.verdict == Delivered ==> choice == Proceed && w.kind == Queue && w.pc.Returned? && w.pc.result.success)
      && (v.verdict == Abandoned ==> choice == Proceed && w.pc == Cancel && CtxDone(w, env))
  {
    hide Shaped, History, Fits;
  }

  lemma GoEnds(s: Sound, i: nat, choice: Choice, j: nat)
    requires Formed(s) && NoRepeats(s.order) && Possible(s, Go(i, choice)) && j < |s.workers| && !Ended(s, j)
    ensures j < |Apply(s, Go(i, choice)).workers|
    ensures Ended(Apply(s, Go(i, choice)), j) ==> Reason(s, Apply(s, Go(i, choice)), Go(i, choice), j)
  {
    hide Core, Observed, Around, NoRepeats, Formed, Snapshot, Publish, Work, Enabled;
    GoKeepsRun(s, i, choice);
    if i == j {
      LiveFacts(s, i);
      WorkEnds(s.cells[s.workers[i].key], s.workers[i], i, s.workers, s.pool, s.env, choice);
    }
  }

  // Stopping a mode ends runs of that mode.
  lemma StopEnds(s: State, k: Key, j: nat)
    requires Formed(s) && k in s.cells && Shaped(s.cells[k], k, s.workers, s.env) && j < |s.workers|
    ensures j < |StopQueue(s, k).workers| && j < |StopKeepalive(s, k).workers|
    ensures StopQueue(s, k).workers[j].verdict != s.workers[j].verdict ==> s.workers[j].kind == Queue
    ensures StopKeepalive(s, k).workers[j].verdict != s.workers[j].verdict ==> s.workers[j].kind == Keepalive
  {
    hide QueueStopped, KeepaliveStopped, InWindow;
  }

  lemma StopAdhocEndsNobody(s: State, k: Key, j: nat)
    requires Formed(s) && j < |s.workers|
    ensures j < |StopAdhoc(s, k).workers| && StopAdhoc(s, k).workers[j].verdict == s.workers[j].verdict
  {
  }

  // The goroutine does nothing meanwhile: others may tell it to end, and may add a subscriber to its run.
  predicate Aside(w: Worker, v: Worker) {
    && v == w.(cancelled := v.cancelled, verdict := v.verdict, registered := v.registered)
    && (w.cancelled ==> v.cancelled) && (v.verdict != w.verdict ==> v.verdict == Abandoned)
  }

  lemma PrepareEnds(s: State, k: Key, mode: Owner, j: nat)
    requires Core(s) && Formed(s) && j < |s.workers|
    ensures j < |PrepareMode(s, k, mode).0.workers| && Aside(s.workers[j], PrepareMode(s, k, mode).0.workers[j])
    ensures var w, v := s.workers[j], PrepareMode(s, k, mode).0.workers[j];
      v.verdict != w.verdict ==> v.verdict == Abandoned && w.key == k && mode != w.kind && !s.env.shuttingDown
  {
    hide Core, Shaped, Snapshot, Publish, StopQueue, StopKeepalive, StopAdhoc, Busy, NamesOwn;
    if !PrepareRefused(s, k, mode) {
      var s1 := StopAdhoc(s, k);
      CellFacts(s, k);
      ShapedNamesOwn(s, k);
      StopAdhocTells(s, k);
      StopAdhocEndsNobody(s, k, j);
      StopAdhocKeeps(s, k);
      CellFacts(s1, k);
      StopEnds(s1, k, j);
      StopQueueTells(s1, k);
      StopKeepaliveTells(s1, k);
    }
  }

  lemma StopIDEnds(s: State, id: int, j: nat)
    requires Core(s) && Formed(s) && j < |s.workers|
    ensures j < |StopByID(s, id).workers| && Aside(s.workers[j], StopByID(s, id).workers[j])
    ensures var w, v := s.workers[j], StopByID(s, id).workers[j];
      v.verdict != w.verdict ==> v.verdict == Abandoned && KeyOf(s.cells, s.order, id) == Some(w.key)
  {
    hide Core, Shaped, Snapshot, Publish, StopTarget, Busy;
    var k := KeyOf(s.cells, s.order, id);
    if k.Some? {
      CellFacts(s, k.value);
      ShapedNamesOwn(s, k.value);
      StopTargetTellsOwn(s, k.value);
    }
  }

  lemma OthersEndNobody(s: State, step: Step, j: nat)
    requires Formed(s) && NoRepeats(s.order) && Possible(s, step) && j < |s.workers|
    requires !step.Go? && !step.StopKeys? && !step.StopID? && !step.Prepare?
    ensures j < |Next(s, step).workers| && Next(s, step).workers[j].verdict == s.workers[j].verdict
    ensures Aside(s.workers[j], Next(s, step).workers[j])
  {
    hide NoRepeats, Snapshot, Publish, SortTargets, Renamed, Without, FreshID, AreSamples, CellsAfter, KeyOf, Listed,
         Busy, WithSubscriber, WellFormed;
  }

  // A run ends only by a success it has been told of, a stop, or a context that is done.
  lemma EndsForAReason(s: Sound, step: Step, j: nat)
    requires j < |s.workers| && !Ended(s, j)
    ensures Formed(s) && j < |Apply(s, step).workers|
    ensures Ended(Apply(s, step), j) ==> Reason(s, Apply(s, step), step, j)
  {
    hide Core, Observed, NoRepeats, Formed, PrepareMode, StopByID, StopAll, Stop;
    CoreListing(s);
    if !Possible(s, step) { return; }
    match step
    case Go(i, choice) => GoEnds(s, i, choice, j);
    case Prepare(k, mode) => PrepareEnds(s, k, mode, j);
    case StopKeys(keys) => StopKeysIsStopAll(s, keys); StopAllTellsOnly(s, keys, j);
    case StopID(id) => StopIDEnds(s, id, j);
    case _ => hide Next, Possible; OthersEndNobody(s, step, j);
  }

  // Nobody but goroutine j itself moves it on.
  lemma OthersLeaveAside(s: Sound, step: Step, j: nat)
    requires j < |s.workers| && !(step.Go? && step.i == j)
    ensures j < |Apply(s, step).workers| && Aside(s.workers[j], Apply(s, step).workers[j])
  {
    hide Core, Observed, NoRepeats, Formed, PrepareMode, StopByID, StopAll, Stop;
    CoreListing(s);
    if !Possible(s, step) { return; }
    match step
    case Go(i, choice) => hide Next; GoKeepsRun(s, i, choice);
    case Prepare(k, mode) => PrepareEnds(s, k, mode, j);
    case StopKeys(keys) => StopKeysIsStopAll(s, keys); StopAllTellsOnly(s, keys, j);
    case StopID(id) => StopIDEnds(s, id, j);
    case _ => hide Next, Possible; OthersEndNobody(s, step, j);
  }

  lemma WorkReturns(c: Cell, w: Worker, i: nat, pool: Pool, env: Env, choice: Choice)
    requires Enabled(c, w, pool, env, choice)
    ensures Work(c, w, i, pool, env, choice).worker.results
      == if w.pc.InRunner? && choice.Return? then w.results + [choice.result] else w.results
  {
  }

  // A call can return at any time.
  lemma NotLiveInRunner(s: Sound, j: nat, choice: Choice)
    requires j < |s.workers| && !Possible(s, Go(j, choice))
    ensures !(s.workers[j].pc.InRunner? && choice.Return?)
  {
    hide Core, Observed;
    if !s.workers[j].pc.Done? { LiveFacts(s, j); }
  }

  // What is kept as a run's results is exactly what its runner calls returned.
  lemma ResultsAreReturns(s: Sound, step: Step, j: nat)
    requires j < |s.workers|
    ensures j < |Apply(s, step).workers|
    ensures Apply(s, step).workers[j].results
      == if step.Go? && step.i == j && s.workers[j].pc.InRunner? && step.choice.Return? then
           s.workers[j].results + [step.choice.result]
         else s.workers[j].results
  {
    hide Core, Observed, NoRepeats, Formed, Next, Work, Enabled;
    CoreListing(s);
    if step.Go? && step.i == j {
      if Possible(s, step) {
        GoKeepsRun(s, j, step.choice);
        WorkReturns(s.cells[s.workers[j].key], s.workers[j], j, s.pool, s.env, step.choice);
      } else { NotLiveInRunner(s, j, step.choice); }
    } else { OthersLeaveAside(s, step, j); }
  }

  lemma StepKeepsWorker(s: Sound, step: Step, j: nat)
    requires j < |s.workers|
    ensures j < |Apply(s, step).workers|
  {
    hide IsSound, Apply, Reason, Formed;
    if Ended(s, j) { EndedRests(s, step, j); } else { EndsForAReason(s, step, j); }
  }

  lemma {:induction false} WorkersStay(s: Sound, steps: seq<Step>, j: nat)
    requires j < |s.workers|
    ensures j < |Run(s, steps).workers|
  {
    hide IsSound, Apply;
    if steps != [] {
      WorkersStay(s, steps[..|steps| - 1], j);
      StepKeepsWorker(Run(s, steps[..|steps| - 1]), steps[|steps| - 1], j);
    }
  }

  // The step at which a run ends on the way, and why.
  lemma {:induction false} EveryEndHasAReason(s: Sound, steps: seq<Step>, j: nat) returns (n: nat)
    requires j < |s.workers| && !Ended(s, j) && j < |Run(s, steps).workers| && Ended(Run(s, steps), j)
    ensures n < |steps|
    ensures var t := Run(s, steps[..n]);
      && Formed(t) && j < |t.workers| && j < |Apply(t, steps[n]).workers| && !Ended(t, j)
      && Reason(t, Apply(t, steps[n]), steps[n], j)
  {
    hide IsSound, Apply, Reason, Ended, Formed;
    assert steps != [];
    var front, last := steps[..|steps| - 1], steps[|steps| - 1];
    var t: Sound := Run(s, front);
    WorkersStay(s, front, j);
    if Ended(t, j) {
      n := EveryEndHasAReason(s, front, j);
      assert front[..n] == steps[..n];
    } else {
      n := |front|;
      EndsForAReason(t, last, j);
    }
  }
}
