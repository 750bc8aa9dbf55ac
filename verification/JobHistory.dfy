/**
 What holds over whole runs: a run that has ended stays ended and is fenced off, its attempts are numbered without a
 gap, its subscribers are handed over at most once, and observers never skip an event.
 */
module JobHistory {
  import opened Text
  import opened Streams
  import opened JobState
  import opened JobSteps
  import opened JobRegistry
  import opened JobApi
  import opened JobInvariant
  import opened JobFrame
  import opened JobKeeps
  import opened JobApiKeeps
  import opened JobRegistryKeeps
  import opened JobRuns
  import opened JobSafety

  // ---------------------------------------------------------------- ended runs

  // The run goroutine i was started for has succeeded or was stopped or cancelled.
  predicate Ended(s: State, i: nat) {
    i < |s.workers| && s.workers[i].verdict != Open
  }

  predicate SameHistory(w: Worker, v: Worker) {
    && v.kind == w.kind && v.key == w.key && v.runID == w.runID
    && v.calls == w.calls && v.registered == w.registered && v.handed == w.handed && v.verdict == w.verdict
  }

  // A run that has ended is told nothing more.
  predicate Rests(s: State, t: State, i: nat) {
    i < |s.workers| && i < |t.workers| && SameHistory(s.workers[i], t.workers[i])
  }

  // Ended is exactly not being the current run any more.
  lemma EndedIsStale(s: Sound, i: nat)
    requires i < |s.workers| && Live(s, i) && s.workers[i].kind != Adhoc
    ensures Ended(s, i) <==> !Current(s, i)
  {
    LiveFacts(s, i);
    hide Core, Observed, Shaped, History, Ambient;
  }

  // Apart from counting the goroutine out, the target's public state is untouched.
  predicate Untouched(c: Cell, d: Cell) {
    && d.target == c.target
    && d.job.(workers := c.job.workers) == c.job
    && d.keepalive.(workers := c.keepalive.workers) == c.keepalive
  }

  lemma EndedWorkRests(c: Cell, w: Worker, i: nat, ws: seq<Worker>, pool: Pool, env: Env, choice: Choice)
    requires Around(c, w, i, ws, pool, env) && Enabled(c, w, pool, env, choice) && w.verdict != Open
    ensures SameHistory(w, Work(c, w, i, pool, env, choice).worker)
    ensures Untouched(c, Work(c, w, i, pool, env, choice).cell)
  {
    PossiblePC(c, w, i, ws, pool, env);
    hide Shaped, Ambient;
  }

  lemma SameRests(s: State, t: State, j: nat)
    requires j < |s.workers| && j < |t.workers|
    requires t.workers[j] == s.workers[j] || t.workers[j] == s.workers[j].(cancelled := true)
    ensures Rests(s, t, j)
  {
  }

  lemma GoRests(s: State, i: nat, choice: Choice, j: nat)
    requires Core(s) && Formed(s) && NoRepeats(s.order) && Possible(s, Go(i, choice)) && Ended(s, j)
    ensures Rests(s, Next(s, Go(i, choice)), j)
  {
    CoreAround(s, i);
    hide Core, Around, Work, Snapshot, Publish, NoRepeats, SameHistory;
    if i == j { EndedWorkRests(s.cells[s.workers[i].key], s.workers[i], i, s.workers, s.pool, s.env, choice); }
    else { SameRests(s, Next(s, Go(i, choice)), j); }
  }

  // Whoever a target names as its run's goroutine has not ended.
  lemma NamedIsOpen(s: State, k: Key, n: nat)
    requires Core(s) && k in s.cells
    requires s.cells[k].job.cancel == Some(n) || s.cells[k].keepalive.cancel == Some(n)
    ensures n < |s.workers| && !Ended(s, n)
  {
    RunAround(s, k, n);
    hide Core, Shaped, Ambient;
  }

  lemma StopQueueRests(s: State, k: Key, j: nat)
    requires Core(s) && Ended(s, j)
    ensures Formed(s) && Rests(s, StopQueue(s, k), j)
  {
    CoreFormed(s);
    hide Core, QueueStopped, SameHistory;
    if k in s.cells && s.cells[k].job.cancel.Some? { NamedIsOpen(s, k, s.cells[k].job.cancel.value); }
    SameRests(s, StopQueue(s, k), j);
  }

  lemma StopKeepaliveRests(s: State, k: Key, j: nat)
    requires Core(s) && Ended(s, j)
    ensures Formed(s) && Rests(s, StopKeepalive(s, k), j)
  {
    CoreFormed(s);
    hide Core, KeepaliveStopped, SameHistory;
    if k in s.cells && s.cells[k].keepalive.cancel.Some? { NamedIsOpen(s, k, s.cells[k].keepalive.cancel.value); }
    SameRests(s, StopKeepalive(s, k), j);
  }

  lemma StopAdhocRests(s: State, k: Key, j: nat)
    requires Formed(s) && Ended(s, j)
    ensures Rests(s, StopAdhoc(s, k), j)
  {
    SameRests(s, StopAdhoc(s, k), j);
  }

  lemma StopRests(s: State, k: Key, j: nat)
    requires Core(s) && Ended(s, j)
    ensures Formed(s)
    ensures Rests(s, StopQueue(s, k), j) && Rests(s, StopKeepalive(s, k), j) && Rests(s, StopAdhoc(s, k), j)
  {
    hide Core, StopQueue, StopKeepalive, StopAdhoc, SameHistory;
    StopQueueRests(s, k, j);
    StopKeepaliveRests(s, k, j);
    StopAdhocRests(s, k, j);
  }

  lemma StopTargetRests(s: State, k: Key, j: nat)
    requires Core(s) && Ended(s, j)
    ensures Formed(s) && Rests(s, StopTarget(s, k), j)
  {
    hide Core, StopQueue, StopKeepalive, StopAdhoc;
    CoreFormed(s);
    var s1 := StopQueue(s, k);
    var s2 := StopKeepalive(s1, k);
    StopQueueKeeps(s, k);
    StopKeepaliveKeeps(s1, k);
    StopRests(s, k, j);
    StopRests(s1, k, j);
    StopRests(s2, k, j);
  }

  lemma {:induction false} StopAllRests(s: State, keys: seq<Key>, j: nat)
    requires Core(s) && Ended(s, j)
    ensures Formed(s) && Rests(s, StopAll(s, keys), j)
  {
    hide Core, StopTarget;
    CoreFormed(s);
    if keys != [] {
      StopAllRests(s, keys[..|keys| - 1], j);
      StopAllKeeps(s, keys[..|keys| - 1]);
      StopTargetRests(StopAll(s, keys[..|keys| - 1]), keys[|keys| - 1], j);
    }
  }

  lemma StopperRests(s: State, step: Step, j: nat)
    requires Core(s) && Formed(s) && NoRepeats(s.order) && Ended(s, j)
    requires step.Prepare? || step.StopKeys? || step.StopID?
    ensures Rests(s, Next(s, step), j)
  {
    hide Core, NoRepeats, Snapshot, Publish, StopQueue, StopKeepalive, StopAdhoc, StopTarget, StopAll;
    match step
    case StopKeys(keys) => StopAllRests(s, keys, j);
    case StopID(id) =>
      var k := KeyOf(s.cells, s.order, id);
      if k.Some? { StopTargetRests(s, k.value, j); }
    case Prepare(k, desired) =>
      StopRests(s, k, j);
      StopAdhocKeeps(s, k);
      StopRests(StopAdhoc(s, k), k, j);
    case _ =>
  }

  lemma AddSubscriberRests(s: State, k: Key, sub: Subscriber, j: nat)
    requires Core(s) && Formed(s) && k in s.cells && Ended(s, j)
    ensures Rests(s, AddSubscriber(s, k, sub), j)
  {
    hide Core, WithSubscriber, Formed, SameHistory;
    if s.cells[k].job.cancel.Some? { NamedIsOpen(s, k, s.cells[k].job.cancel.value); }
    SameRests(s, AddSubscriber(s, k, sub), j);
  }

  lemma StartRests(s: State, step: Step, j: nat)
    requires Core(s) && Formed(s) && NoRepeats(s.order) && Ended(s, j)
    requires step.Join? || step.StartQueueRun? || step.StartKeepaliveRun? || step.Reserve?
    ensures Rests(s, Next(s, step), j)
  {
    hide Core, NoRepeats, Snapshot, Publish, AddSubscriber, KeyOf;
    match step
    case Join(k, sub) => if k in s.cells { AddSubscriberRests(s, k, sub, j); }
    case StartQueueRun(k, sub) => if k in s.cells { AddSubscriberRests(s, k, sub, j); }
    case _ =>
  }

  lemma OtherRests(s: State, step: Step, j: nat)
    requires Formed(s) && NoRepeats(s.order) && Ended(s, j) && Possible(s, step)
    requires step.HangUp? || step.Settings? || step.Shutdown? || step.Create? || step.Update? || step.Delete?
      || step.Subscribe? || step.Close? || step.Take? || step.Tick? || step.CancelRoot?
    ensures Rests(s, Next(s, step), j)
  {
    hide NoRepeats, Snapshot, Publish, SortTargets, Renamed, Without, FreshID, AreSamples, CellsAfter, KeyOf, Listed,
         Busy;
  }

  lemma EndedRests(s: Sound, step: Step, j: nat)
    requires Ended(s, j)
    ensures Rests(s, Apply(s, step), j)
  {
    CoreListing(s);
    hide Core, Observed, NoRepeats, Formed, Next, FreshID, AreSamples, SameHistory;
    if !Possible(s, step) { SameRests(s, s, j); return; }
    match step
    case Go(i, choice) => GoRests(s, i, choice, j);
    case Prepare(_, _) => StopperRests(s, step, j);
    case StopKeys(_) => StopperRests(s, step, j);
    case StopID(_) => StopperRests(s, step, j);
    case Join(_, _) => StartRests(s, step, j);
    case StartQueueRun(_, _) => StartRests(s, step, j);
    case StartKeepaliveRun(_) => StartRests(s, step, j);
    case Reserve(_) => StartRests(s, step, j);
    case _ => OtherRests(s, step, j);
  }

  // A run that has ended stays ended, whatever happens: the runner is never called for it again, no subscriber is
  // added to it, and nothing more is handed over.
  lemma {:induction false} EndedForEver(s: Sound, steps: seq<Step>, i: nat)
    requires Ended(s, i)
    ensures Ended(Run(s, steps), i) && Rests(s, Run(s, steps), i)
  {
    hide Core, Observed, Apply;
    if steps == [] { SameRests(s, s, i); }
    else {
      EndedForEver(s, steps[..|steps| - 1], i);
      EndedRests(Run(s, steps[..|steps| - 1]), steps[|steps| - 1], i);
    }
  }

  lemma NobodyTouches(c: Cell)
    ensures Untouched(c, c)
  {
  }

  lemma EndedGoLeaves(s: State, i: nat, choice: Choice, k: Key)
    requires Core(s) && Formed(s) && NoRepeats(s.order) && Possible(s, Go(i, choice)) && Ended(s, i) && k in s.cells
    ensures k in Next(s, Go(i, choice)).cells
    ensures Untouched(s.cells[k], Next(s, Go(i, choice)).cells[k])
  {
    hide Core, Around, Work, Enabled, Snapshot, Publish, NoRepeats, Untouched, Formed, SameHistory;
    CoreAround(s, i);
    EndedWorkRests(s.cells[s.workers[i].key], s.workers[i], i, s.workers, s.pool, s.env, choice);
    NobodyTouches(s.cells[k]);
  }

  // Run fencing: however late a goroutine of an ended run takes its next step, that step leaves the state, attempts,
  // timestamps, error and subscribers of every target as they are.
  lemma EndedRunIsFenced(s: Sound, steps: seq<Step>, i: nat, choice: Choice, k: Key)
    requires Ended(s, i)
    ensures var t: Sound := Run(s, steps);
      k in t.cells ==>
        k in Apply(t, Go(i, choice)).cells && Untouched(t.cells[k], Apply(t, Go(i, choice)).cells[k])
  {
    EndedForEver(s, steps, i);
    var t: Sound := Run(s, steps);
    hide Core, Observed, Run;
    CoreListing(t);
    if k in t.cells && Possible(t, Go(i, choice)) { EndedGoLeaves(t, i, choice, k); }
  }

  lemma StopOne(s: State, k: Key)
    requires Formed(s)
    ensures Stop(s, [k]).workers == StopTarget(s, k).workers
  {
    hide StopTarget, Snapshot, Publish, Formed;
    assert [k][..0] == [];
    assert StopAll(s, [k][..0]) == s;
  }

  lemma StopStep(s: Sound, k: Key)
    ensures Formed(s) && Apply(s, StopKeys([k])).workers == StopTarget(s, k).workers
  {
    CoreListing(s);
    hide Core, Observed, NoRepeats, Formed, StopTarget, Stop;
    StopOne(s, k);
  }

  lemma StopReaches(c: Cell, w: Worker, i: nat, ws: seq<Worker>, pool: Pool, env: Env)
    requires Around(c, w, i, ws, pool, env)
    ensures w.kind == Queue && QueueCurrent(c.job, w) ==> c.job.cancel == Some(i) && c.keepalive.cancel == None
    ensures w.kind == Keepalive && KeepaliveCurrent(c.keepalive, w) ==>
      c.keepalive.cancel == Some(i) && c.job.cancel == None
  {
    hide History, Ambient;
  }

  lemma StopTargetEnds(s: State, k: Key, i: nat)
    requires Formed(s) && k in s.cells && i < |s.workers|
    requires var q, p := s.cells[k].job, s.cells[k].keepalive;
      || (q.state == Running && q.cancel == Some(i) && p.cancel == None)
      || (p.state != Off && p.cancel == Some(i) && q.cancel == None)
    ensures Ended(StopTarget(s, k), i)
  {
  }

  // A stop ends the run that is current, at once.
  lemma StopEndsTheRun(s: Sound, i: nat)
    requires i < |s.workers| && Live(s, i) && Current(s, i)
    ensures Ended(Apply(s, StopKeys([s.workers[i].key])), i)
  {
    var k := s.workers[i].key;
    LiveFacts(s, i);
    StopReaches(s.cells[k], s.workers[i], i, s.workers, s.pool, s.env);
    hide Core, Observed, Around, Formed, StopTarget, Apply;
    StopStep(s, k);
    StopTargetEnds(s, k, i);
  }

  // ---------------------------------------------------------------- attempts

  // Within one run the runner is called with 1, 2, 3, ... and `attempts` (or `requests`) equals the calls begun.
  lemma AttemptsAreNumbered(s: Sound, i: nat)
    requires i < |s.workers|
    ensures forall n :: 0 <= n < |s.workers[i].calls| ==> s.workers[i].calls[n] == n + 1
    ensures Live(s, i) && s.workers[i].kind == Queue && Current(s, i) ==>
      s.cells[s.workers[i].key].job.attempts == |s.workers[i].calls|
    ensures Live(s, i) && s.workers[i].kind == Keepalive && Current(s, i) ==>
      s.cells[s.workers[i].key].keepalive.requests == |s.workers[i].calls|
  {
    assert FitsIn(s, i);
    hide Core, Observed;
  }

  // ---------------------------------------------------------------- subscribers

  // A run's subscribers are what was registered with it; they are handed to notification once, all of them, if it
  // succeeds, and never if it is stopped or cancelled. A job that is not running has none.
  lemma SubscribersAreConserved(s: Sound, i: nat)
    requires i < |s.workers| && s.workers[i].kind == Queue
    ensures var w := s.workers[i];
      && (w.verdict == Delivered ==> w.handed == [w.registered])
      && (w.verdict != Delivered ==> w.handed == [])
      && (w.pc.Done? ==> w.verdict != Open)
      && (w.verdict == Open ==>
        && Live(s, i)
        && s.cells[w.key].job.state == Running && s.cells[w.key].job.runID == w.runID
        && s.cells[w.key].job.subscribers == w.registered)
  {
    assert FitsIn(s, i);
    hide Core, Observed;
  }

  lemma NoSubscribersUnlessRunning(s: Sound, k: Key)
    requires k in s.cells && s.cells[k].job.state != Running
    ensures s.cells[k].job.subscribers == map[]
  {
    TargetFacts(s, k);
    hide Core, Observed;
  }

  // The run the target is in has the subscriber, with this value.
  predicate Registers(s: State, k: Key, sub: Subscriber) {
    && k in s.cells && s.cells[k].job.state == Running
    && IsRun(s.workers, s.cells[k].job.cancel, Queue, k, s.cells[k].job.runID)
    && var registered := s.workers[s.cells[k].job.cancel.value].registered;
    SubscriberKey(sub) in registered && registered[SubscriberKey(sub)] == sub
  }

  lemma JoiningRegisters(s: State, k: Key, sub: Subscriber)
    requires Formed(s) && k in s.cells && sub.recipient != "" && s.cells[k].job.state == Running
    requires Shaped(s.cells[k], k, s.workers, s.env)
    ensures Registers(AddSubscriber(s, k, sub), k, sub)
  {
    hide SubscriberKey, InWindow;
  }

  lemma StartingRegisters(s: State, k: Key, sub: Subscriber)
    requires Formed(s) && sub.recipient != "" && StartQueueOutcome(s, k) == Started
    ensures Registers(StartQueue(s, k, sub), k, sub)
  {
    hide SubscriberKey, Snapshot, Publish;
  }

  lemma StartIsApplied(s: Sound, k: Key, sub: Subscriber)
    ensures Formed(s) && Apply(s, StartQueueRun(k, sub)) == StartQueue(s, k, sub)
  {
    hide Core, Observed, StartQueue, NoRepeats, Formed;
    CoreListing(s);
  }

  // Who asks to start a target that is running is registered with the run there is; who starts it, with the new one.
  lemma SubscribingRegisters(s: Sound, k: Key, sub: Subscriber)
    requires k in s.cells && sub.recipient != ""
    requires StartQueueOutcome(s, k) == Started || (StartQueueOutcome(s, k) == Already && !s.env.shuttingDown)
    ensures Registers(Apply(s, StartQueueRun(k, sub)), k, sub)
  {
    StartIsApplied(s, k, sub);
    TargetFacts(s, k);
    hide IsSound, Core, Observed, Registers, AddSubscriber, Broadcast, Shaped, Apply, Formed;
    if StartQueueOutcome(s, k) == Started { StartingRegisters(s, k, sub); }
    else { JoiningRegisters(s, k, sub); }
  }

  lemma JoinIsApplied(s: Sound, k: Key, sub: Subscriber)
    ensures Formed(s) && Apply(s, Join(k, sub)) == JoinQueue(s, k, sub)
  {
    hide Core, Observed, JoinQueue, NoRepeats, Formed;
    CoreListing(s);
  }

  // Who asks for a target that is running and is turned away by prepareMode is registered with the run there is.
  lemma JoiningIsRegistered(s: Sound, k: Key, sub: Subscriber)
    requires k in s.cells && sub.recipient != "" && s.cells[k].job.state == Running
    ensures Formed(s) && PrepareMode(s, k, Queue) == (s, Refused)
    ensures Registers(Apply(s, Join(k, sub)), k, sub)
  {
    JoinIsApplied(s, k, sub);
    TargetFacts(s, k);
    hide IsSound, Core, Observed, Registers, AddSubscriber, Shaped, Apply, Formed;
    JoiningRegisters(s, k, sub);
  }

  // ---------------------------------------------------------------- observers

  // A goroutine that has not returned works on k, or an ad-hoc one does.
  ghost predicate SomeoneWorks(s: State, k: Key) {
    exists i :: 0 <= i < |s.workers| && !s.workers[i].pc.Done? && s.workers[i].key == k
  }

  ghost predicate SomeAdhocWorks(s: State, k: Key) {
    exists i :: 0 <= i < |s.workers| && !s.workers[i].pc.Done? && s.workers[i].key == k && s.workers[i].kind == Adhoc
  }

  lemma AdhocOwns(s: Sound, k: Key)
    requires k in s.cells
    ensures s.cells[k].arbiter.owner == Adhoc <==> SomeAdhocWorks(s, k)
  {
    TargetFacts(s, k);
    forall i | 0 <= i < |s.workers| && !s.workers[i].pc.Done? && s.workers[i].key == k && s.workers[i].kind == Adhoc
      ensures s.cells[k].arbiter.owner == Adhoc
    {
      LiveFacts(s, i);
    }
    hide Core, Observed;
  }

  // What a snapshot shows: the targets in order, each as it is. It is busy exactly as long as somebody works on it, and
  // shown to be asked ad hoc exactly as long as such a request is on its way.
  lemma SnapshotIsExact(s: Sound, n: nat)
    requires n < |s.order|
    ensures Formed(s) && |Snapshot(s).targets| == |s.order| && s.order[n] in s.cells
    ensures Snapshot(s).currentProcesses == s.pool.processes && Snapshot(s).maxParallel == s.env.maxParallel
    ensures var v, k := Snapshot(s).targets[n], s.order[n];
      && (v.busy <==> SomeoneWorks(s, k)) && (v.adhocRunning <==> SomeAdhocWorks(s, k))
      && ShowsTarget(v, s.cells[k].target) && ShowsJob(v, s.cells[k].job) && ShowsKeepalive(v, s.cells[k].keepalive)
  {
    hide Core, Observed, SomeAdhocWorks;
    CoreFormed(s);
    BusyMeansWorkedOn(s, s.order[n]);
    AdhocOwns(s, s.order[n]);
  }


  // What an observer has on its channel is the consecutive events since it subscribed, within its buffer; while it is
  // open and has drained the channel it holds exactly what a direct read would return.
  lemma ObserverAgrees(s: Sound, o: nat)
    requires o < |s.feed.streams|
    ensures Formed(s)
    ensures var st := s.feed.streams[o];
      && GapFree(st, s.feed.log)
      && (forall n :: 0 <= n < |st.sent| ==> st.sent[n].id == st.since + n + 1)
      && (st.open ==> st.Latest().snapshot == Snapshot(s))
  {
    CoreFormed(s);
    hide Core, Snapshot;
    assert GapFree(s.feed.streams[o], s.feed.log);
  }

  // A section publishes at most once.
  ghost predicate Published(feed: Feed, after: Feed)
    requires WellFormed(feed.streams)
  {
    || after == feed
    || (exists event :: after == Feed(Publish(feed.streams, event), feed.log + [event]))
  }

  lemma BroadcastPublishes(s: State, feed: Feed)
    requires Formed(s) && s.feed == feed
    ensures Published(feed, Broadcast(s).feed)
  {
    var event := Event(|feed.log| + 1, Snapshot(s));
    assert Broadcast(s).feed == Feed(Publish(feed.streams, event), feed.log + [event]);
  }

  lemma SilentPublishes(feed: Feed)
    requires WellFormed(feed.streams)
    ensures Published(feed, feed)
  {
  }

  lemma GoPublishes(s: State, i: nat, choice: Choice)
    requires Formed(s) && NoRepeats(s.order) && Possible(s, Go(i, choice))
    ensures Published(s.feed, Next(s, Go(i, choice)).feed)
  {
    hide Published, Broadcast, NoRepeats, Work;
    var w := s.workers[i];
    var e := Work(s.cells[w.key], w, i, s.pool, s.env, choice);
    SilentPublishes(s.feed);
    BroadcastPublishes(
      s.(cells := s.cells[w.key := e.cell], workers := s.workers[i := e.worker], pool := e.pool), s.feed);
  }

  lemma StopperPublishes(s: State, step: Step)
    requires Formed(s) && NoRepeats(s.order) && (step.Prepare? || step.StopKeys? || step.StopID?)
    ensures Published(s.feed, Next(s, step).feed)
  {
    hide Published, Broadcast, NoRepeats, StopAll, Busy;
    SilentPublishes(s.feed);
    match step
    case StopKeys(keys) =>
      StopAllLeavesFeed(s, keys);
      BroadcastPublishes(StopAll(s, keys), s.feed);
    case StopID(id) =>
      var k := KeyOf(s.cells, s.order, id);
      if k.Some? { BroadcastPublishes(StopTarget(s, k.value), s.feed); }
    case Prepare(k, desired) =>
      var s1 := StopAdhoc(s, k);
      var s2 := if desired == Queue then StopKeepalive(s1, k) else s1;
      BroadcastPublishes(if desired == Keepalive then StopQueue(s2, k) else s2, s.feed);
    case _ =>
  }

  lemma StartPublishes(s: State, step: Step)
    requires Formed(s) && NoRepeats(s.order)
    requires step.Join? || step.StartQueueRun? || step.StartKeepaliveRun? || step.Reserve?
    ensures Published(s.feed, Next(s, step).feed)
  {
    hide Published, Broadcast, NoRepeats, WithSubscriber;
    SilentPublishes(s.feed);
    match step
    case StartQueueRun(k, sub) =>
      if StartQueueOutcome(s, k) == Started {
        var c := QueueStarted(s.cells[k], |s.workers|, s.env.now, sub);
        BroadcastPublishes(Spawn(s, k, c, NewWorker(Queue, k, c.job.runID, Claim, c.job.subscribers)), s.feed);
      }
    case StartKeepaliveRun(k) =>
      if StartKeepaliveOutcome(s, k) == Started {
        var c := KeepaliveStarted(s.cells[k], |s.workers|, s.env.now);
        BroadcastPublishes(Spawn(s, k, c, NewWorker(Keepalive, k, c.keepalive.runID, Claim, map[])), s.feed);
      }
    case Reserve(id) =>
      if ReserveOutcome(s, id) == Reserved {
        var k, run := KeyOf(s.cells, s.order, id).value, s.env.nextAdhocRunID + 1;
        BroadcastPublishes(
          Spawn(s.(env := s.env.(nextAdhocRunID := run)), k, AdhocReserved(s.cells[k], |s.workers|, run),
                NewWorker(Adhoc, k, run, Slot, map[])), s.feed);
      }
    case _ =>
  }

  lemma CommitPublishes(s: State, step: Step)
    requires Formed(s) && NoRepeats(s.order) && Possible(s, step)
    requires step.Create? || step.Update? || step.Delete? || step.Settings?
    ensures Published(s.feed, Next(s, step).feed)
  {
    hide Published, Broadcast, NoRepeats, Busy, Normalize, SortTargets, FreshID, AreSamples, CellsAfter;
    SilentPublishes(s.feed);
    match step
    case Create(target) =>
      var k := Normalize(target.name);
      var cells := s.cells[k := NewCell(target)];
      BroadcastPublishes(s.(cells := cells, order := SortTargets(s.order + [k], cells)), s.feed);
    case Update(id, target) =>
      if UpdateOutcome(s, id, target.name) == Committed {
        var k, newKey := KeyOf(s.cells, s.order, id).value, Normalize(target.name);
        RenamedIsListed(s.cells, s.order, k, newKey, target);
        var cells, order := CellsRenamed(s.cells, k, newKey, target), OrderRenamed(s.order, k, newKey);
        BroadcastPublishes(s.(cells := cells, order := SortTargets(order, cells)), s.feed);
      }
    case Delete(id) =>
      if DeleteOutcome(s, id) == Committed {
        var k := KeyOf(s.cells, s.order, id).value;
        WithoutIsListed(s.cells, s.order, k);
        BroadcastPublishes(s.(cells := s.cells - {k}, order := Without(s.order, k)), s.feed);
      }
    case Settings(minimum, maximum, parallel, message, samples) =>
      BroadcastPublishes(s.(
        cells := CellsAfter(s, minimum, maximum, samples), pool := PoolAfter(s.pool, s.env, parallel),
        env := EnvAfter(s.env, minimum, maximum, parallel, message)), s.feed);
    case _ =>
  }

  lemma StepPublishes(s: State, step: Step)
    requires Formed(s) && NoRepeats(s.order) && Possible(s, step)
    requires !step.Subscribe? && !step.Close? && !step.Take?
    ensures Published(s.feed, Next(s, step).feed)
  {
    match step
    case Go(i, choice) => GoPublishes(s, i, choice);
    case Prepare(_, _) => StopperPublishes(s, step);
    case StopKeys(_) => StopperPublishes(s, step);
    case StopID(_) => StopperPublishes(s, step);
    case Join(_, _) => StartPublishes(s, step);
    case StartQueueRun(_, _) => StartPublishes(s, step);
    case StartKeepaliveRun(_) => StartPublishes(s, step);
    case Reserve(_) => StartPublishes(s, step);
    case Settings(_, _, _, _, _) => CommitPublishes(s, step);
    case Create(_) => CommitPublishes(s, step);
    case Update(_, _) => CommitPublishes(s, step);
    case Delete(_) => CommitPublishes(s, step);
    case _ => SilentPublishes(s.feed); hide Published;
  }

  lemma StreamIsGapFree(s: Sound, o: nat)
    requires o < |s.feed.streams|
    ensures Formed(s) && GapFree(s.feed.streams[o], s.feed.log)
  {
    hide Core, GapFree;
    CoreFormed(s);
  }

  // What a stream is after a section that may publish one event.
  predicate Offered(st: Stream<Event>, after: Stream<Event>, grown: bool) {
    && after.since == st.since && st.sent <= after.sent && st.received <= after.received
    && (!st.open ==> !after.open && after.sent == st.sent)
    && (st.open && !after.open ==> st.received + st.capacity == |st.sent| && grown)
  }

  lemma PublishingIsOneOffer(feed: Feed, after: Feed, o: nat)
    requires WellFormed(feed.streams) && Published(feed, after)
    requires o < |feed.streams| && GapFree(feed.streams[o], feed.log)
    ensures |after.streams| == |feed.streams| && |feed.log| <= |after.log| <= |feed.log| + 1
    ensures Offered(feed.streams[o], after.streams[o], |after.log| == |feed.log| + 1)
  {
  }

  lemma SubscriberLeavesOthers(s: State, step: Step, o: nat)
    requires Formed(s) && NoRepeats(s.order) && Possible(s, step) && o < |s.feed.streams|
    requires step.Subscribe? || step.Close? || step.Take?
    ensures o < |Next(s, step).feed.streams| && Next(s, step).feed.log == s.feed.log
    ensures Offered(s.feed.streams[o], Next(s, step).feed.streams[o].(open := s.feed.streams[o].open), false)
    ensures Next(s, step).feed.streams[o].open != s.feed.streams[o].open ==> step == Close(o)
    ensures Next(s, step).feed.streams[o].open ==> s.feed.streams[o].open
  {
    hide NoRepeats, Snapshot, Formed;
  }

  // What one section does to an observer: it may be sent one more event; it is closed only on request or if that
  // event does not fit its buffer; and once closed it is sent nothing.
  lemma ObserversAreOnlyDroppedForMissing(s: Sound, step: Step, o: nat)
    requires o < |s.feed.streams|
    ensures o < |Apply(s, step).feed.streams| && |s.feed.log| <= |Apply(s, step).feed.log| <= |s.feed.log| + 1
    ensures var st, after := s.feed.streams[o], Apply(s, step).feed.streams[o];
      && after.since == st.since && st.sent <= after.sent && st.received <= after.received
      && (!st.open ==> !after.open && after.sent == st.sent)
      && (st.open && !after.open ==>
        step == Close(o) || (st.received + st.capacity == |st.sent| && |Apply(s, step).feed.log| == |s.feed.log| + 1))
  {
    hide Core, Observed, NoRepeats, Formed, Possible, Next, GapFree, Published;
    CoreListing(s);
    StreamIsGapFree(s, o);
    if !Possible(s, step) {}
    else if step.Subscribe? || step.Close? || step.Take? { SubscriberLeavesOthers(s, step, o); }
    else {
      StepPublishes(s, step);
      PublishingIsOneOffer(s.feed, Next(s, step).feed, o);
    }
  }

  // Over a whole run: a closed observer is sent nothing more, and nobody's received events change.
  lemma {:induction false} ClosedStaysClosed(s: Sound, steps: seq<Step>, o: nat)
    requires o < |s.feed.streams| && !s.feed.streams[o].open
    ensures o < |Run(s, steps).feed.streams| && !Run(s, steps).feed.streams[o].open
    ensures Run(s, steps).feed.streams[o].sent == s.feed.streams[o].sent
  {
    hide Core, Observed, Apply;
    if steps != [] {
      ClosedStaysClosed(s, steps[..|steps| - 1], o);
      ObserversAreOnlyDroppedForMissing(Run(s, steps[..|steps| - 1]), steps[|steps| - 1], o);
    }
  }
}
