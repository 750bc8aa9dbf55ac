/**
 Shutdown drains. Once it has begun no goroutine is added, the goroutines there are can take only boundedly many
 steps, and when none can take another the manager is quiescent.
 */
module JobShutdown {
  import opened Text
  import opened Streams
  import opened JobState
  import opened JobSteps
  import opened JobRegistry
  import opened JobApi
  import opened JobInvariant
  import opened JobFrame
  import opened JobKeeps
  import opened JobRegistryKeeps
  import opened JobRuns
  import opened JobSafety

  // ---------------------------------------------------------------- nobody joins

  // The goroutine is where it was; its context may have been cancelled.
  predicate Stays(w: Worker, v: Worker) {
    v.pc == w.pc && v.key == w.key && v.kind == w.kind && (w.cancelled ==> v.cancelled)
  }

  // The goroutines are where they were.
  predicate AllStay(s: State, t: State) {
    |t.workers| == |s.workers| && forall i :: 0 <= i < |s.workers| ==> Stays(s.workers[i], t.workers[i])
  }

  // They are, and none has been woken.
  predicate SameWaits(s: State, t: State) {
    && AllStay(s, t)
    && t.pool.changed == s.pool.changed && t.cells.Keys == s.cells.Keys
    && forall k <- s.cells ::
      && t.cells[k].arbiter.changed == s.cells[k].arbiter.changed
      && t.cells[k].keepalive.schedule == s.cells[k].keepalive.schedule
  }

  // The calls that can wake a waiting goroutine during shutdown.
  predicate Stirs(step: Step) {
    step.StopKeys? || step.StopID? || step.Settings? || step.Create? || step.Update? || step.Delete?
  }

  lemma StartAddsNone(s: State, step: Step)
    requires Formed(s) && NoRepeats(s.order) && Possible(s, step) && s.env.shuttingDown
    requires step.Join? || step.StartQueueRun? || step.StartKeepaliveRun? || step.Reserve? || step.Prepare?
    ensures SameWaits(s, Next(s, step)) && Next(s, step).env.shuttingDown
  {
    hide KeyOf, Busy, WithSubscriber, NoRepeats;
  }

  lemma WorldAddsNone(s: State, step: Step)
    requires Formed(s) && NoRepeats(s.order) && Possible(s, step)
    requires || step.HangUp? || step.Shutdown? || step.Subscribe? || step.Close? || step.Take? || step.Tick?
             || step.CancelRoot?
    ensures SameWaits(s, Next(s, step)) && (s.env.shuttingDown ==> Next(s, step).env.shuttingDown)
  {
    hide Snapshot, NoRepeats, WellFormed;
  }

  lemma StopTargetMovesNobody(s: State, k: Key)
    requires Formed(s)
    ensures AllStay(s, StopTarget(s, k)) && StopTarget(s, k).env == s.env
  {
    hide QueueStopped, KeepaliveStopped;
  }

  lemma {:induction false} StopAllMovesNobody(s: State, keys: seq<Key>)
    requires Formed(s)
    ensures AllStay(s, StopAll(s, keys)) && StopAll(s, keys).env == s.env
  {
    hide StopTarget, Formed;
    if keys != [] {
      StopAllMovesNobody(s, keys[..|keys| - 1]);
      StopTargetMovesNobody(StopAll(s, keys[..|keys| - 1]), keys[|keys| - 1]);
    }
  }

  lemma StirringAddsNone(s: State, step: Step)
    requires Formed(s) && NoRepeats(s.order) && Possible(s, step) && Stirs(step)
    ensures AllStay(s, Next(s, step)) && Next(s, step).env.shuttingDown == s.env.shuttingDown
  {
    hide KeyOf, Busy, NoRepeats, StopAll, StopTarget, Snapshot, Publish, CellsAfter, FreshID, AreSamples, SortTargets,
         Renamed, Without, Normalize, Listed, WellFormed;
    match step
    case StopKeys(keys) => StopAllMovesNobody(s, keys);
    case StopID(id) =>
      var k := KeyOf(s.cells, s.order, id);
      if k.Some? { StopTargetMovesNobody(s, k.value); }
    case _ =>
  }

  lemma CallAddsNone(s: State, step: Step)
    requires Formed(s) && NoRepeats(s.order) && Possible(s, step) && s.env.shuttingDown && !step.Go?
    ensures AllStay(s, Next(s, step)) && Next(s, step).env.shuttingDown
    ensures !Stirs(step) ==> SameWaits(s, Next(s, step))
  {
    hide Next, Possible, NoRepeats, Formed, AllStay;
    if Stirs(step) { StirringAddsNone(s, step); }
    else if step.Join? || step.StartQueueRun? || step.StartKeepaliveRun? || step.Reserve? || step.Prepare? {
      StartAddsNone(s, step);
    } else { WorldAddsNone(s, step); }
  }

  lemma GoAddsNone(s: State, i: nat, choice: Choice)
    requires Formed(s) && NoRepeats(s.order) && Possible(s, Go(i, choice)) && s.env.shuttingDown
    ensures |Next(s, Go(i, choice)).workers| == |s.workers| && Next(s, Go(i, choice)).env.shuttingDown
  {
    hide Publish, Snapshot, NoRepeats, Work, Enabled;
  }

  // From BeginShutdown on, no goroutine is ever added.
  lemma {:induction false} NobodyJoins(s: Sound, steps: seq<Step>)
    requires s.env.shuttingDown
    ensures Run(s, steps).env.shuttingDown && |Run(s, steps).workers| == |s.workers|
  {
    hide Core, Observed, Next, Possible;
    if steps != [] {
      var front, last := steps[..|steps| - 1], steps[|steps| - 1];
      NobodyJoins(s, front);
      var t: Sound := Run(s, front);
      CoreListing(t);
      if Possible(t, last) {
        if last.Go? { GoAddsNone(t, last.i, last.choice); } else { CallAddsNone(t, last); }
      }
    }
  }

  // ---------------------------------------------------------------- the measure

  // How far a goroutine whose context is done still is from returning.
  function Stage(pc: PC): nat {
    match pc
    case Mark(_) => 15
    case Sleep => 14
    case SleepWait(_, _) => 14
    case Claim => 13
    case ClaimWait(_) => 13
    case Slot => 12
    case SlotWait(_) => 12
    case Begin => 11
    case InRunner => 10
    case Finish(_) => 9
    case Returned(_) => 8
    case DropSlot => 7
    case DropSlotWait(_) => 14
    case DropTarget => 6
    case Cancel => 5
    case Exit(_, _) => 1
    case Done => 0
  }

  // A goroutine that tries again, or will because its channel is closed, is restless; one that waits is at rest.
  function Restless(c: Cell, w: Worker, pool: Pool): nat {
    match w.pc
    case Claim => 1
    case Slot => 1
    case Sleep => 1
    case ClaimWait(g) => if g < c.arbiter.changed then 2 else 0
    case SlotWait(g) => if g < pool.changed then 2 else 0
    case SleepWait(_, g) => if g < c.keepalive.schedule then 2 else 0
    case _ => 0
  }

  function StageSum(ws: seq<Worker>): nat {
    if ws == [] then 0 else StageSum(ws[..|ws| - 1]) + Stage(ws[|ws| - 1].pc)
  }

  function RestlessAt(s: State, i: nat): nat
    requires i < |s.workers|
  {
    if s.workers[i].key in s.cells then Restless(s.cells[s.workers[i].key], s.workers[i], s.pool) else 0
  }

  function RestlessSum(s: State, n: nat): nat
    requires n <= |s.workers|
  {
    if n == 0 then 0 else RestlessSum(s, n - 1) + RestlessAt(s, n - 1)
  }

  // Lexicographic: first the stages, then the restless.
  function Measure(s: State): nat {
    StageSum(s.workers) * (2 * |s.workers| + 1) + RestlessSum(s, |s.workers|)
  }

  lemma {:induction false} StageSumUpdate(ws: seq<Worker>, i: nat, w: Worker)
    requires i < |ws|
    ensures StageSum(ws[i := w]) + Stage(ws[i].pc) == StageSum(ws) + Stage(w.pc)
  {
    var last := |ws| - 1;
    if i == last { assert ws[i := w][..last] == ws[..last]; }
    else {
      assert ws[i := w][..last] == ws[..last][i := w];
      StageSumUpdate(ws[..last], i, w);
    }
  }

  lemma {:induction false} StageSumBound(ws: seq<Worker>)
    ensures StageSum(ws) <= 15 * |ws|
  {
    if ws != [] { StageSumBound(ws[..|ws| - 1]); }
  }

  lemma {:induction false} RestlessBound(s: State, n: nat)
    requires n <= |s.workers|
    ensures RestlessSum(s, n) <= 2 * n
  {
    if n > 0 { RestlessBound(s, n - 1); }
  }

  // One goroutine comes to rest, the others are as restless as before.
  lemma {:induction false} RestlessUpdate(s: State, t: State, i: nat, n: nat)
    requires n <= |s.workers| == |t.workers| && i < |s.workers|
    requires RestlessAt(t, i) < RestlessAt(s, i)
    requires forall j :: 0 <= j < |s.workers| && j != i ==> RestlessAt(t, j) == RestlessAt(s, j)
    ensures if n <= i then RestlessSum(t, n) == RestlessSum(s, n) else RestlessSum(t, n) < RestlessSum(s, n)
  {
    if n > 0 { RestlessUpdate(s, t, i, n - 1); }
  }

  // ---------------------------------------------------------------- every step descends

  // Nobody is woken by the step.
  predicate WakesNone(c: Cell, pool: Pool, e: Effect) {
    && e.cell.arbiter.changed == c.arbiter.changed && e.cell.keepalive.schedule == c.keepalive.schedule
    && e.pool.changed == pool.changed
  }

  // A step takes its goroutine to a lower stage, or puts it to rest without waking anybody.
  predicate Descends(c: Cell, w: Worker, pool: Pool, e: Effect) {
    || Stage(e.worker.pc) < Stage(w.pc)
    || (Stage(e.worker.pc) == Stage(w.pc) && Restless(e.cell, e.worker, e.pool) < Restless(c, w, pool)
        && WakesNone(c, pool, e))
  }

  // A goroutine on its way out: its context is cancelled, or only the deferred end is left.
  predicate Leaving(w: Worker) {
    w.cancelled || w.pc.Exit?
  }

  lemma WorkDescends(c: Cell, w: Worker, i: nat, ws: seq<Worker>, pool: Pool, env: Env, choice: Choice)
    requires Around(c, w, i, ws, pool, env) && Enabled(c, w, pool, env, choice) && Leaving(w)
    ensures Descends(c, w, pool, Work(c, w, i, pool, env, choice))
  {
    hide Shaped, History;
    PossiblePC(c, w, i, ws, pool, env);
  }

  lemma Monotone(a: nat, b: nat, c: nat)
    requires a <= b
    ensures a * c <= b * c
  {
  }

  lemma Lexicographic(stage: nat, stage': nat, rest: nat, rest': nat, n: nat)
    requires rest' <= 2 * n && (stage' < stage || (stage' == stage && rest' < rest))
    ensures stage' * (2 * n + 1) + rest' < stage * (2 * n + 1) + rest
  {
    if stage' < stage {
      Monotone(stage' + 1, stage, 2 * n + 1);
      assert (stage' + 1) * (2 * n + 1) == stage' * (2 * n + 1) + 2 * n + 1;
    }
  }

  lemma CommitRests(s: State, i: nat, e: Effect)
    requires Formed(s) && Live(s, i) && SameRun(s.workers[i], e.worker)
    requires WakesNone(s.cells[s.workers[i].key], s.pool, e)
    requires Restless(e.cell, e.worker, e.pool) < Restless(s.cells[s.workers[i].key], s.workers[i], s.pool)
    ensures |Commit(s, i, e).workers| == |s.workers|
    ensures RestlessSum(Commit(s, i, e), |s.workers|) < RestlessSum(s, |s.workers|)
  {
    hide Snapshot, Publish, Formed, RestlessSum;
    RestlessUpdate(s, Commit(s, i, e), i, |s.workers|);
  }

  lemma CommitWorkers(s: State, i: nat, e: Effect)
    requires Formed(s) && i < |s.workers|
    ensures Commit(s, i, e).workers == s.workers[i := e.worker]
  {
    hide Snapshot, Publish, Formed;
  }

  lemma CommitDescends(s: State, i: nat, e: Effect)
    requires Formed(s) && Live(s, i) && SameRun(s.workers[i], e.worker)
    requires Descends(s.cells[s.workers[i].key], s.workers[i], s.pool, e)
    ensures Measure(Commit(s, i, e)) < Measure(s)
  {
    hide Commit, Stage, Restless, WakesNone, RestlessSum, StageSum, SameRun, Formed;
    var t := Commit(s, i, e);
    CommitWorkers(s, i, e);
    StageSumUpdate(s.workers, i, e.worker);
    RestlessBound(t, |t.workers|);
    if Stage(e.worker.pc) == Stage(s.workers[i].pc) { CommitRests(s, i, e); }
    Lexicographic(StageSum(s.workers), StageSum(t.workers), RestlessSum(s, |s.workers|), RestlessSum(t, |t.workers|),
                  |s.workers|);
  }

  lemma GoDescends(s: State, i: nat, choice: Choice)
    requires Core(s) && Formed(s) && NoRepeats(s.order) && Possible(s, Go(i, choice)) && s.env.shuttingDown
    ensures Measure(Next(s, Go(i, choice))) < Measure(s)
  {
    CoreAround(s, i);
    var w, c := s.workers[i], s.cells[s.workers[i].key];
    WorkDescends(c, w, i, s.workers, s.pool, s.env, choice);
    WorkLegal(c, w, i, s.workers, s.pool, s.env, choice);
    hide Core, Around, Work, Commit, NoRepeats, Descends, WorkerOK, Shaped, Counted, Guarantee, Measure, SameRun,
         Formed;
    CommitDescends(s, i, Work(c, w, i, s.pool, s.env, choice));
  }

  // ---------------------------------------------------------------- calls in between

  lemma {:induction false} SameStages(ws: seq<Worker>, ws': seq<Worker>)
    requires |ws| == |ws'| && forall i :: 0 <= i < |ws| ==> ws'[i].pc == ws[i].pc
    ensures StageSum(ws') == StageSum(ws)
  {
    if ws != [] { SameStages(ws[..|ws| - 1], ws'[..|ws| - 1]); }
  }

  lemma {:induction false} SameRestless(s: State, t: State, n: nat)
    requires SameWaits(s, t) && n <= |s.workers|
    ensures RestlessSum(t, n) == RestlessSum(s, n)
  {
    if n > 0 { SameRestless(s, t, n - 1); }
  }

  // A call that wakes nobody leaves the measure alone; one that does leaves at least the stages alone.
  lemma CallMeasure(s: State, t: State)
    requires AllStay(s, t)
    ensures Measure(t) <= Measure(s) + 2 * |s.workers|
    ensures SameWaits(s, t) ==> Measure(t) == Measure(s)
  {
    SameStages(s.workers, t.workers);
    RestlessBound(t, |t.workers|);
    if SameWaits(s, t) { SameRestless(s, t, |s.workers|); }
  }

  // ---------------------------------------------------------------- the drain

  // The goroutines' steps in a run ...
  ghost function Moves(s: Sound, steps: seq<Step>): nat {
    if steps == [] then 0 else
      var front, last := steps[..|steps| - 1], steps[|steps| - 1];
      Moves(s, front) + if last.Go? && Possible(Run(s, front), last) then 1 else 0
  }

  // ... and the calls that can wake them.
  function Stirrings(steps: seq<Step>): nat {
    if steps == [] then 0 else
      Stirrings(steps[..|steps| - 1]) + if Stirs(steps[|steps| - 1]) then 1 else 0
  }

  function DrainBound(goroutines: nat): nat {
    15 * goroutines * (2 * goroutines + 1) + 2 * goroutines
  }

  lemma MeasureBound(s: State)
    ensures Measure(s) <= DrainBound(|s.workers|)
  {
    StageSumBound(s.workers);
    RestlessBound(s, |s.workers|);
    Monotone(StageSum(s.workers), 15 * |s.workers|, 2 * |s.workers| + 1);
  }

  lemma StepUsesUpMeasure(s: Sound, step: Step)
    requires s.env.shuttingDown
    ensures Possible(s, step) && step.Go? ==> Measure(Apply(s, step)) < Measure(s)
    ensures Measure(Apply(s, step)) <= Measure(s) + if Stirs(step) then 2 * |s.workers| else 0
  {
    hide Core, Observed, Next, Possible, Measure, AllStay, SameWaits;
    CoreListing(s);
    if Possible(s, step) {
      if step.Go? { GoDescends(s, step.i, step.choice); }
      else {
        CallAddsNone(s, step);
        CallMeasure(s, Next(s, step));
      }
    }
  }

  lemma {:induction false} StepsUseUpMeasure(s: Sound, steps: seq<Step>)
    requires s.env.shuttingDown
    ensures Moves(s, steps) + Measure(Run(s, steps)) <= Measure(s) + 2 * |s.workers| * Stirrings(steps)
  {
    hide IsSound, Apply, Possible, Measure, Stirs;
    if steps != [] {
      var front, last := steps[..|steps| - 1], steps[|steps| - 1];
      StepsUseUpMeasure(s, front);
      NobodyJoins(s, front);
      StepUsesUpMeasure(Run(s, front), last);
      assert 2 * |s.workers| * (Stirrings(front) + 1) == 2 * |s.workers| * Stirrings(front) + 2 * |s.workers|;
    }
  }

  // No goroutine can take a step.
  ghost predicate Stuck(s: State) {
    forall i, choice :: !Possible(s, Go(i, choice))
  }

  // Whoever waits can give up once its context is cancelled.
  lemma LeavingMoves(s: Sound, i: nat)
    requires i < |s.workers| && !s.workers[i].pc.Done? && Leaving(s.workers[i])
    ensures CanMove(s, i)
  {
    LiveFacts(s, i);
    var w, c := s.workers[i], s.cells[s.workers[i].key];
    if !Blocked(w) && !w.pc.SleepWait? { OthersCanMove(s, i); }
    else {
      hide Core, Observed, Shaped, History, Fits;
      assert Enabled(c, w, s.pool, s.env, GiveUp);
    }
  }

  // In shutdown a goroutine that has not returned can move.
  lemma ShutdownLetsMove(s: Sound, i: nat)
    requires s.env.shuttingDown && i < |s.workers| && !s.workers[i].pc.Done?
    ensures CanMove(s, i)
  {
    LiveFacts(s, i);
    hide Core, Observed, Shaped, History, Fits;
    LeavingMoves(s, i);
  }

  lemma SomeoneMoves(s: Sound)
    requires s.env.shuttingDown && s.pool.running != 0
    ensures !Stuck(s)
  {
    PoolIsExact(s);
    hide Core, Observed;
    var i := SumWitness(s.workers, Goroutines);
    ShutdownLetsMove(s, i);
    var choice :| Enabled(s.cells[s.workers[i].key], s.workers[i], s.pool, s.env, choice);
    assert Possible(s, Go(i, choice));
  }

  // The manager drains: however goroutines and callers interleave after BeginShutdown, and whatever the runner returns,
  // the goroutines take at most DrainBound steps, and 2 more each for every call that can have woken them; and where
  // they cannot take another, all have returned and nothing is held.
  lemma ShutdownDrains(s: Sound, steps: seq<Step>)
    requires s.env.shuttingDown
    ensures Moves(s, steps) <= DrainBound(|s.workers|) + 2 * |s.workers| * Stirrings(steps)
    ensures Stuck(Run(s, steps)) ==> Run(s, steps).pool.running == 0 && Quiescent(Run(s, steps))
  {
    hide IsSound, Stuck, Run, Measure, Moves, Stirrings, Quiescent, DrainBound;
    StepsUseUpMeasure(s, steps);
    MeasureBound(s);
    NobodyJoins(s, steps);
    var t: Sound := Run(s, steps);
    if t.pool.running != 0 { SomeoneMoves(t); } else { WaitMeansQuiescent(t); }
  }
}
