/** Which steps start something on a target: the second sections of startQueue and startKeepalive, and RunAdhoc's. */
module JobStarts {
  import opened Text
  import opened Streams
  import opened JobState
  import opened JobSteps
  import opened JobRegistry
  import opened JobApi
  import opened JobInvariant
  import opened JobRegistryKeeps
  import opened JobRuns

  // ---------------------------------------------------------------- the two modes

  predicate IsMode(mode: Owner) {
    mode == Queue || mode == Keepalive
  }

  function WorkersOn(c: Cell, mode: Owner): int {
    if mode == Queue then c.job.workers else c.keepalive.workers
  }

  predicate Active(c: Cell, mode: Owner) {
    if mode == Queue then c.job.state == Running else c.keepalive.state != Off
  }

  // How many goroutines of that mode the manager counts on k.
  function WorkersAt(s: State, k: Key, mode: Owner): int {
    if k in s.cells then WorkersOn(s.cells[k], mode) else 0
  }

  // The section of startQueue or startKeepalive that follows prepareMode.
  function StartStep(k: Key, mode: Owner, sub: Subscriber): Step {
    if mode == Queue then StartQueueRun(k, sub) else StartKeepaliveRun(k)
  }

  predicate IsStart(step: Step, k: Key, mode: Owner) {
    match step
    case StartQueueRun(key, _) => key == k && mode == Queue
    case StartKeepaliveRun(key) => key == k && mode == Keepalive
    case _ => false
  }

  // The step starts a run of that mode on k.
  predicate Starts(s: State, step: Step, k: Key, mode: Owner) {
    && IsStart(step, k, mode)
    && (if mode == Queue then StartQueueOutcome(s, k) else StartKeepaliveOutcome(s, k)) == Started
  }

  // ---------------------------------------------------------------- nothing starts

  predicate NothingStarts(c: Cell, d: Cell) {
    && d.job.workers <= c.job.workers && d.keepalive.workers <= c.keepalive.workers
    && (d.job.state == Running ==> c.job.state == Running)
    && (d.keepalive.state != Off ==> c.keepalive.state != Off)
    && (d.arbiter.owner == Adhoc ==> c.arbiter.owner == Adhoc)
  }

  // From s to t nothing is started on k; a target that is new there is idle.
  predicate Calm(s: State, t: State, k: Key) {
    k in t.cells ==> (k in s.cells && NothingStarts(s.cells[k], t.cells[k])) || !Busy(t.cells[k])
  }

  predicate Quiets(s: State, t: State, k: Key) {
    k in t.cells ==> k in s.cells && NothingStarts(s.cells[k], t.cells[k])
  }

  lemma QuietsOn(s: State, t: State, u: State, k: Key)
    requires Quiets(s, t, k) && Quiets(t, u, k)
    ensures Quiets(s, u, k)
  {
  }

  lemma SameIsQuiet(s: State, t: State, k: Key)
    requires t.cells == s.cells
    ensures Quiets(s, t, k)
  {
  }

  lemma StopQueueIsQuiet(s: State, k: Key, l: Key)
    requires Formed(s)
    ensures Quiets(s, StopQueue(s, k), l)
  {
  }

  lemma StopKeepaliveIsQuiet(s: State, k: Key, l: Key)
    requires Formed(s)
    ensures Quiets(s, StopKeepalive(s, k), l)
  {
  }

  lemma StopIsQuiet(s: State, k: Key, l: Key)
    requires Formed(s)
    ensures Quiets(s, StopQueue(s, k), l) && Quiets(s, StopKeepalive(s, k), l) && Quiets(s, StopAdhoc(s, k), l)
  {
    hide StopQueue, StopKeepalive;
    StopQueueIsQuiet(s, k, l);
    StopKeepaliveIsQuiet(s, k, l);
  }

  lemma StopTargetIsQuiet(s: State, k: Key, l: Key)
    requires Formed(s)
    ensures Quiets(s, StopTarget(s, k), l)
  {
    hide Quiets, StopQueue, StopKeepalive, StopAdhoc;
    var s1 := StopQueue(s, k);
    var s2 := StopKeepalive(s1, k);
    StopIsQuiet(s, k, l);
    StopIsQuiet(s1, k, l);
    StopIsQuiet(s2, k, l);
    QuietsOn(s, s1, s2, l);
    QuietsOn(s, s2, StopAdhoc(s2, k), l);
  }

  lemma {:induction false} StopAllIsQuiet(s: State, keys: seq<Key>, k: Key)
    requires Formed(s)
    ensures Quiets(s, StopAll(s, keys), k)
  {
    hide Quiets, StopTarget;
    if keys == [] { SameIsQuiet(s, s, k); }
    else {
      var t := StopAll(s, keys[..|keys| - 1]);
      StopAllIsQuiet(s, keys[..|keys| - 1], k);
      StopTargetIsQuiet(t, keys[|keys| - 1], k);
      QuietsOn(s, t, StopTarget(t, keys[|keys| - 1]), k);
    }
  }

  lemma StopStepIsQuiet(s: State, step: Step, k: Key)
    requires Formed(s) && NoRepeats(s.order) && (step.StopKeys? || step.StopID?)
    ensures Quiets(s, Next(s, step), k)
  {
    hide NothingStarts, StopAll, StopTarget, Snapshot, Publish, NoRepeats;
    match step
    case StopKeys(keys) => StopAllIsQuiet(s, keys, k);
    case StopID(id) =>
      var key := KeyOf(s.cells, s.order, id);
      if key.Some? { StopTargetIsQuiet(s, key.value, k); }
      SameIsQuiet(s, s, k);
    case _ =>
  }

  lemma PrepareIsQuiet(s: State, k: Key, desired: Owner, l: Key)
    requires Formed(s)
    ensures Quiets(s, PrepareMode(s, k, desired).0, l)
  {
    hide NothingStarts, StopQueue, StopKeepalive, StopAdhoc, Snapshot;
    SameIsQuiet(s, s, l);
    if !PrepareRefused(s, k, desired) {
      var s1 := StopAdhoc(s, k);
      StopIsQuiet(s, k, l);
      StopIsQuiet(s1, k, l);
      if desired == Queue { QuietsOn(s, s1, StopKeepalive(s1, k), l); }
      if desired == Keepalive { QuietsOn(s, s1, StopQueue(s1, k), l); }
    }
  }

  lemma WorkIsQuiet(c: Cell, w: Worker, i: nat, pool: Pool, env: Env, choice: Choice)
    requires Enabled(c, w, pool, env, choice)
    ensures NothingStarts(c, Work(c, w, i, pool, env, choice).cell)
  {
  }

  lemma GoIsQuiet(s: State, i: nat, choice: Choice, k: Key)
    requires Formed(s) && NoRepeats(s.order) && Possible(s, Go(i, choice))
    ensures Quiets(s, Next(s, Go(i, choice)), k)
  {
    hide Work, Snapshot, Publish, NoRepeats, Enabled;
    WorkIsQuiet(s.cells[s.workers[i].key], s.workers[i], i, s.pool, s.env, choice);
  }

  lemma WorldIsQuiet(s: State, step: Step, k: Key)
    requires Formed(s) && NoRepeats(s.order) && Possible(s, step)
    requires || step.HangUp? || step.Shutdown? || step.Subscribe? || step.Close? || step.Take? || step.Tick?
             || step.CancelRoot? || step.Join? || step.Settings?
    ensures Quiets(s, Next(s, step), k)
  {
    hide Snapshot, Publish, NoRepeats, WithSubscriber;
  }

  // A target that is created is idle, and so is one that is renamed.
  lemma CommitIsCalm(s: State, step: Step, k: Key)
    requires Formed(s) && NoRepeats(s.order) && Possible(s, step)
    requires step.Create? || step.Update? || step.Delete?
    ensures Calm(s, Next(s, step), k)
  {
    hide Snapshot, Publish, SortTargets, Listed, Normalize, Without, OrderRenamed, NoRepeats, KeyOf;
  }

  lemma PrepareStepIsQuiet(s: State, key: Key, desired: Owner, k: Key)
    requires Formed(s) && NoRepeats(s.order)
    ensures Quiets(s, Next(s, Prepare(key, desired)), k)
  {
    hide PrepareMode, Quiets, NoRepeats;
    PrepareIsQuiet(s, key, desired, k);
  }

  lemma CallIsCalm(s: State, step: Step, k: Key)
    requires Formed(s) && NoRepeats(s.order) && Possible(s, step)
    requires !step.StartQueueRun? && !step.StartKeepaliveRun? && !step.Reserve?
    ensures Calm(s, Next(s, step), k)
  {
    hide Next, Possible, NoRepeats, Formed, Busy, NothingStarts;
    match step
    case Go(i, choice) => GoIsQuiet(s, i, choice, k);
    case Prepare(key, desired) => PrepareStepIsQuiet(s, key, desired, k);
    case StopKeys(_) => StopStepIsQuiet(s, step, k);
    case StopID(_) => StopStepIsQuiet(s, step, k);
    case Create(_) => CommitIsCalm(s, step, k);
    case Update(_, _) => CommitIsCalm(s, step, k);
    case Delete(_) => CommitIsCalm(s, step, k);
    case _ => WorldIsQuiet(s, step, k);
  }

  // ---------------------------------------------------------------- what starts

  // A target a run is started on: one more goroutine of its mode, which is now on; the other mode and the arbiter's
  // owner are as they were.
  predicate RunStarted(c: Cell, d: Cell, mode: Owner) {
    && WorkersOn(d, mode) == WorkersOn(c, mode) + 1 && Active(d, mode) && d.arbiter.owner == c.arbiter.owner
    && (mode == Queue ==> d.keepalive == c.keepalive) && (mode == Keepalive ==> d.job == c.job)
  }

  lemma QueueStarts(s: State, key: Key, sub: Subscriber, k: Key)
    requires Formed(s)
    ensures var t := StartQueue(s, key, sub);
      if Starts(s, StartQueueRun(key, sub), k, Queue) then
        k in s.cells && k in t.cells && RunStarted(s.cells[k], t.cells[k], Queue)
      else Quiets(s, t, k)
  {
    hide Snapshot, Publish, WithSubscriber;
  }

  lemma KeepaliveStarts(s: State, key: Key, k: Key)
    requires Formed(s)
    ensures var t := StartKeepalive(s, key);
      if Starts(s, StartKeepaliveRun(key), k, Keepalive) then
        k in s.cells && k in t.cells && RunStarted(s.cells[k], t.cells[k], Keepalive)
      else Quiets(s, t, k)
  {
    hide Snapshot, Publish;
  }

  // An ad-hoc request takes an idle target.
  lemma ReserveStarts(s: State, id: int, k: Key)
    requires Formed(s)
    ensures var t := ReserveAdhoc(s, id);
      || Quiets(s, t, k)
      || (k in s.cells && k in t.cells && !Busy(s.cells[k])
          && t.cells[k].job == s.cells[k].job && t.cells[k].keepalive == s.cells[k].keepalive)
  {
    hide Snapshot, Publish, KeyOf;
  }

  // ---------------------------------------------------------------- the step, seen from k

  // What one step can do to k: start a run of one of the modes, take it for an ad-hoc request when it is idle, or
  // start nothing.
  ghost predicate Seen(s: State, t: State, step: Step, k: Key) {
    if Starts(s, step, k, Queue) then k in s.cells && k in t.cells && RunStarted(s.cells[k], t.cells[k], Queue)
    else if Starts(s, step, k, Keepalive) then
      k in s.cells && k in t.cells && RunStarted(s.cells[k], t.cells[k], Keepalive)
    else
      || Calm(s, t, k)
      || (k in s.cells && k in t.cells && !Busy(s.cells[k])
          && t.cells[k].job == s.cells[k].job && t.cells[k].keepalive == s.cells[k].keepalive)
  }

  lemma IdleIsSeen(s: Sound, step: Step, k: Key)
    requires Formed(s) && NoRepeats(s.order) && !Possible(s, step)
    ensures Seen(s, Apply(s, step), step, k)
  {
    hide Core, Observed, Busy, RunStarted, NoRepeats, AreSamples, Enabled;
  }

  lemma QuietIsCalm(s: State, t: State, k: Key)
    ensures Quiets(s, t, k) ==> Calm(s, t, k)
  {
  }

  lemma StepIsSeen(s: Sound, step: Step, k: Key)
    ensures Seen(s, Apply(s, step), step, k)
  {
    hide Core, Observed, Calm, Busy, RunStarted, Formed, NoRepeats, StartQueue, StartKeepalive, ReserveAdhoc,
         StartQueueOutcome, StartKeepaliveOutcome;
    CoreListing(s);
    if !Possible(s, step) { IdleIsSeen(s, step, k); return; }
    match step
    case StartQueueRun(key, sub) => QueueStarts(s, key, sub, k); QuietIsCalm(s, Apply(s, step), k);
    case StartKeepaliveRun(key) => KeepaliveStarts(s, key, k); QuietIsCalm(s, Apply(s, step), k);
    case Reserve(id) => ReserveStarts(s, id, k); QuietIsCalm(s, Apply(s, step), k);
    case _ => hide Next, Possible; CallIsCalm(s, step, k);
  }
}
