/**
 A target that has been stopped drains: what prepareMode, UpdateTarget and DeleteTarget wait for comes about. While
 nothing is started on it, its goroutines can take only boundedly many steps, and when none can take another it is idle.
 */
module JobDrain {
  import opened Text
  import opened Streams
  import opened JobState
  import opened JobSteps
  import opened JobRegistry
  import opened JobApi
  import opened JobInvariant
  import opened JobFrame
  import opened JobKeeps
  import opened JobRegistryKeeps
  import opened JobRuns
  import opened JobSafety
  import opened JobStarts
  import opened JobShutdown

  // ---------------------------------------------------------------- a stopped target

  // Both modes are off, and a request that owns the target has been told to end.
  predicate ToldToEnd(c: Cell) {
    c.job.state != Running && c.keepalive.state == Off && c.arbiter.cancel == None
  }

  // Goroutine i works on k and has not returned.
  predicate WorksOn(s: State, i: nat, k: Key) {
    i < |s.workers| && s.workers[i].key == k && !s.workers[i].pc.Done?
  }

  // All of k's goroutines are on their way out, and they are among the first n.
  ghost predicate Draining(s: State, k: Key, n: nat) {
    n <= |s.workers| && forall i: nat :: WorksOn(s, i, k) ==> i < n && Leaving(s.workers[i])
  }

  lemma ToldIsLeaving(c: Cell, w: Worker, i: nat, ws: seq<Worker>, pool: Pool, env: Env)
    requires Around(c, w, i, ws, pool, env) && ToldToEnd(c)
    ensures Leaving(w)
  {
    hide Shaped, History, Ambient;
  }

  lemma StoppedDrains(s: Sound, k: Key)
    requires k in s.cells && ToldToEnd(s.cells[k])
    ensures Draining(s, k, |s.workers|)
  {
    hide Core, Observed, Around, ToldToEnd, Leaving;
    forall i: nat | WorksOn(s, i, k) ensures Leaving(s.workers[i]) {
      LiveFacts(s, i);
      ToldIsLeaving(s.cells[k], s.workers[i], i, s.workers, s.pool, s.env);
    }
  }

  // A stop tells everybody on the target to end.
  lemma StopTargetTells(s: State, k: Key)
    requires Formed(s) && k in s.cells && Shaped(s.cells[k], k, s.workers, s.env)
    ensures k in StopTarget(s, k).cells && ToldToEnd(StopTarget(s, k).cells[k])
  {
  }

  lemma IdleIsTold(s: Sound, k: Key)
    requires k in s.cells && !Busy(s.cells[k])
    ensures ToldToEnd(s.cells[k])
  {
    hide Core, Observed;
    TargetFacts(s, k);
  }

  lemma ListedIsThere(s: State, k: Key)
    requires Formed(s) && k in s.order
    ensures k in s.cells
  {
  }

  // So what UpdateTarget and DeleteTarget begin with leaves the target draining.
  lemma StopByIDDrains(s: Sound, id: int)
    ensures Formed(s)
    ensures var k, t := KeyOf(s.cells, s.order, id), Apply(s, StopID(id));
      k.Some? ==> k.value in t.cells && Draining(t, k.value, |t.workers|)
  {
    hide Core, Observed, NoRepeats, Formed, StopTarget, Snapshot, Publish, ToldToEnd, Draining, Busy;
    CoreListing(s);
    var k := KeyOf(s.cells, s.order, id);
    if k.Some? {
      ListedIsThere(s, k.value);
      if Busy(s.cells[k.value]) {
        TargetFacts(s, k.value);
        StopTargetTells(s, k.value);
      } else { IdleIsTold(s, k.value); }
      StoppedDrains(Apply(s, StopID(id)), k.value);
    }
  }

  lemma PrepareTells(s: State, k: Key, mode: Owner)
    requires Formed(s) && IsMode(mode) && !PrepareRefused(s, k, mode)
    requires k in s.cells && Shaped(s.cells[k], k, s.workers, s.env)
    ensures k in PrepareMode(s, k, mode).0.cells && ToldToEnd(PrepareMode(s, k, mode).0.cells[k])
  {
    hide Snapshot, Publish, Busy, IsRun, InWindow;
  }

  // ... and so does prepareMode, unless it refuses.
  lemma PrepareDrains(s: Sound, k: Key, mode: Owner)
    requires IsMode(mode) && !PrepareRefused(s, k, mode)
    ensures var t := Apply(s, Prepare(k, mode)); k in t.cells && Draining(t, k, |t.workers|)
  {
    hide Core, Observed, NoRepeats, Formed, Snapshot, Publish, Draining, Busy;
    CoreListing(s);
    TargetFacts(s, k);
    PrepareTells(s, k, mode);
    hide PrepareMode, ToldToEnd;
    StoppedDrains(Apply(s, Prepare(k, mode)), k);
  }

  // ---------------------------------------------------------------- what others do

  // An ad-hoc request takes k.
  ghost predicate Reserves(s: State, step: Step, k: Key)
    requires Formed(s)
  {
    && step.Reserve? && ReserveOutcome(s, step.id) == Reserved
    && KeyOf(s.cells, s.order, step.id) == Some(k)
  }

  // Something is started on k.
  ghost predicate Joins(s: State, step: Step, k: Key) {
    Starts(s, step, k, Queue) || Starts(s, step, k, Keepalive) || (Formed(s) && Reserves(s, step, k))
  }

  // One of k's goroutines takes a step.
  predicate MovesOn(s: State, step: Step, k: Key) {
    step.Go? && WorksOn(s, step.i, k)
  }

  // k's goroutines are where they were, and nobody has joined them.
  predicate KeepsOn(s: State, t: State, k: Key) {
    && |s.workers| <= |t.workers|
    && (forall j :: 0 <= j < |s.workers| ==>
      t.workers[j].key == s.workers[j].key && (s.workers[j].key == k ==> Stays(s.workers[j], t.workers[j])))
    && forall j :: |s.workers| <= j < |t.workers| ==> t.workers[j].key != k
  }

  lemma AllStayKeeps(s: State, t: State, k: Key)
    requires AllStay(s, t)
    ensures KeepsOn(s, t, k)
  {
  }

  lemma StopMovesNobody(s: State, k: Key)
    requires Formed(s)
    ensures AllStay(s, StopQueue(s, k)) && AllStay(s, StopKeepalive(s, k)) && AllStay(s, StopAdhoc(s, k))
  {
    hide QueueStopped, KeepaliveStopped;
  }

  lemma AllStayOn(s: State, t: State, u: State)
    requires AllStay(s, t) && AllStay(t, u)
    ensures AllStay(s, u)
  {
  }

  lemma NobodyMoves(s: State)
    ensures AllStay(s, s)
  {
  }

  lemma PrepareMovesNobody(s: State, k: Key, mode: Owner)
    requires Formed(s)
    ensures AllStay(s, PrepareMode(s, k, mode).0)
  {
    hide StopQueue, StopKeepalive, StopAdhoc, Snapshot, Publish, Stays;
    NobodyMoves(s);
    if !PrepareRefused(s, k, mode) {
      var s1 := StopAdhoc(s, k);
      StopMovesNobody(s, k);
      StopMovesNobody(s1, k);
      if mode == Queue { AllStayOn(s, s1, StopKeepalive(s1, k)); }
      if mode == Keepalive { AllStayOn(s, s1, StopQueue(s1, k)); }
    }
  }

  lemma StartKeepsOn(s: State, step: Step, k: Key)
    requires Formed(s) && NoRepeats(s.order) && Possible(s, step) && !Joins(s, step, k)
    requires step.Join? || step.StartQueueRun? || step.StartKeepaliveRun? || step.Reserve?
    ensures KeepsOn(s, Next(s, step), k)
  {
    hide NoRepeats, Snapshot, Publish, WithSubscriber, KeyOf, Busy;
  }

  lemma GoKeepsRun(s: State, i: nat, choice: Choice)
    requires Core(s) && Formed(s) && NoRepeats(s.order) && Possible(s, Go(i, choice))
    ensures Next(s, Go(i, choice)).workers
      == s.workers[i := Work(s.cells[s.workers[i].key], s.workers[i], i, s.pool, s.env, choice).worker]
    ensures SameRun(s.workers[i], Next(s, Go(i, choice)).workers[i])
  {
    hide Core, Around, NoRepeats, Formed, Snapshot, Publish, Work, WorkerOK, Shaped, Counted, Guarantee;
    CoreAround(s, i);
    WorkLegal(s.cells[s.workers[i].key], s.workers[i], i, s.workers, s.pool, s.env, choice);
  }

  lemma OtherGoKeepsOn(s: State, i: nat, choice: Choice, k: Key)
    requires Core(s) && Formed(s) && NoRepeats(s.order) && Possible(s, Go(i, choice)) && s.workers[i].key != k
    ensures KeepsOn(s, Next(s, Go(i, choice)), k)
  {
    hide Core, Around, Legal, NoRepeats, Formed, Snapshot, Publish, Enabled, Work;
    GoKeepsRun(s, i, choice);
  }

  lemma PrepareStepMovesNobody(s: State, key: Key, mode: Owner)
    requires Formed(s) && NoRepeats(s.order)
    ensures AllStay(s, Next(s, Prepare(key, mode)))
  {
    hide PrepareMode, NoRepeats, AllStay;
    PrepareMovesNobody(s, key, mode);
  }

  // Whatever is not a step of k's own goroutines leaves them where they are.
  lemma OthersKeepOn(s: Sound, step: Step, k: Key)
    requires !Joins(s, step, k) && !MovesOn(s, step, k)
    ensures KeepsOn(s, Apply(s, step), k)
  {
    hide Core, Observed, NoRepeats, Formed, Next, Joins, KeepsOn, AllStay, PrepareMode;
    CoreListing(s);
    if !Possible(s, step) { NobodyMoves(s); AllStayKeeps(s, s, k); return; }
    match step
    case Go(i, choice) => OtherGoKeepsOn(s, i, choice, k);
    case Prepare(key, mode) => PrepareStepMovesNobody(s, key, mode); AllStayKeeps(s, Next(s, step), k);
    case Join(_, _) => StartKeepsOn(s, step, k);
    case StartQueueRun(_, _) => StartKeepsOn(s, step, k);
    case StartKeepaliveRun(_) => StartKeepsOn(s, step, k);
    case Reserve(_) => StartKeepsOn(s, step, k);
    case _ =>
      if Stirs(step) { StirringAddsNone(s, step); } else { WorldAddsNone(s, step); }
      AllStayKeeps(s, Next(s, step), k);
  }

  // ---------------------------------------------------------------- k's measure

  function StagesOn(s: State, k: Key, n: nat): nat
    requires n <= |s.workers|
  {
    if n == 0 then 0
    else StagesOn(s, k, n - 1) + if s.workers[n - 1].key == k then Stage(s.workers[n - 1].pc) else 0
  }

  function RestlessOn(s: State, k: Key, n: nat): nat
    requires n <= |s.workers|
  {
    if n == 0 then 0
    else RestlessOn(s, k, n - 1) + if s.workers[n - 1].key == k then RestlessAt(s, n - 1) else 0
  }

  // Lexicographic, over k's goroutines among the first n.
  function MeasureOn(s: State, k: Key, n: nat): nat
    requires n <= |s.workers|
  {
    StagesOn(s, k, n) * (2 * n + 1) + RestlessOn(s, k, n)
  }

  lemma {:induction false} MeasureOnBound(s: State, k: Key, n: nat)
    requires n <= |s.workers|
    ensures StagesOn(s, k, n) <= 15 * n && RestlessOn(s, k, n) <= 2 * n
  {
    if n > 0 { MeasureOnBound(s, k, n - 1); }
  }

  // A channel that k's goroutines may wait on has been closed, or k is there no more, or again.
  predicate Signals(s: State, t: State, k: Key) {
    || t.pool.changed != s.pool.changed
    || (k in s.cells) != (k in t.cells)
    || (k in s.cells && k in t.cells
        && (t.cells[k].arbiter.changed != s.cells[k].arbiter.changed
            || t.cells[k].keepalive.schedule != s.cells[k].keepalive.schedule))
  }

  lemma {:induction false} StagesStay(s: State, t: State, k: Key, n: nat)
    requires KeepsOn(s, t, k) && n <= |s.workers|
    ensures n <= |t.workers| && StagesOn(t, k, n) == StagesOn(s, k, n)
  {
    if n > 0 { StagesStay(s, t, k, n - 1); }
  }

  lemma {:induction false} RestlessStays(s: State, t: State, k: Key, n: nat)
    requires KeepsOn(s, t, k) && n <= |s.workers| && !Signals(s, t, k)
    ensures n <= |t.workers| && RestlessOn(t, k, n) == RestlessOn(s, k, n)
  {
    if n > 0 { RestlessStays(s, t, k, n - 1); }
  }

  // Others leave the stages alone, and wake k's goroutines only by a signal.
  lemma OthersMeasure(s: State, t: State, k: Key, n: nat)
    requires KeepsOn(s, t, k) && n <= |s.workers|
    ensures n <= |t.workers|
    ensures MeasureOn(t, k, n) <= MeasureOn(s, k, n) + if Signals(s, t, k) then 2 * n else 0
  {
    StagesStay(s, t, k, n);
    MeasureOnBound(t, k, n);
    if !Signals(s, t, k) { RestlessStays(s, t, k, n); }
  }

  lemma {:induction false} StagesMove(s: State, t: State, k: Key, i: nat, n: nat)
    requires n <= |s.workers| == |t.workers| && i < |s.workers| && t.workers == s.workers[i := t.workers[i]]
    requires s.workers[i].key == k == t.workers[i].key
    ensures StagesOn(t, k, n) + (if i < n then Stage(s.workers[i].pc) else 0)
      == StagesOn(s, k, n) + (if i < n then Stage(t.workers[i].pc) else 0)
  {
    if n > 0 { StagesMove(s, t, k, i, n - 1); }
  }

  lemma {:induction false} RestlessMoves(s: State, t: State, k: Key, i: nat, n: nat)
    requires n <= |s.workers| == |t.workers| && i < |s.workers|
    requires s.workers[i].key == k && forall j :: 0 <= j < |s.workers| ==> t.workers[j].key == s.workers[j].key
    requires RestlessAt(t, i) < RestlessAt(s, i)
    requires forall j :: 0 <= j < |s.workers| && j != i && s.workers[j].key == k ==>
      RestlessAt(t, j) == RestlessAt(s, j)
    ensures if n <= i then RestlessOn(t, k, n) == RestlessOn(s, k, n) else RestlessOn(t, k, n) < RestlessOn(s, k, n)
  {
    if n > 0 { RestlessMoves(s, t, k, i, n - 1); }
  }

  lemma RestOn(s: State, i: nat, e: Effect, n: nat)
    requires Formed(s) && Live(s, i) && SameRun(s.workers[i], e.worker) && i < n <= |s.workers|
    requires WakesNone(s.cells[s.workers[i].key], s.pool, e)
    requires Restless(e.cell, e.worker, e.pool) < Restless(s.cells[s.workers[i].key], s.workers[i], s.pool)
    ensures |Commit(s, i, e).workers| == |s.workers|
    ensures RestlessOn(Commit(s, i, e), s.workers[i].key, n) < RestlessOn(s, s.workers[i].key, n)
  {
    hide Snapshot, Publish, Formed, RestlessOn;
    RestlessMoves(s, Commit(s, i, e), s.workers[i].key, i, n);
  }

  // A step of one of k's goroutines on its way out uses up some of k's measure.
  lemma CommitDescendsOn(s: State, i: nat, e: Effect, n: nat)
    requires Formed(s) && Live(s, i) && SameRun(s.workers[i], e.worker) && i < n <= |s.workers|
    requires Descends(s.cells[s.workers[i].key], s.workers[i], s.pool, e)
    ensures |Commit(s, i, e).workers| == |s.workers|
    ensures MeasureOn(Commit(s, i, e), s.workers[i].key, n) < MeasureOn(s, s.workers[i].key, n)
  {
    hide Commit, Stage, Restless, WakesNone, RestlessOn, StagesOn, Formed;
    var t, k := Commit(s, i, e), s.workers[i].key;
    CommitWorkers(s, i, e);
    StagesMove(s, t, k, i, n);
    MeasureOnBound(t, k, n);
    if Stage(e.worker.pc) == Stage(s.workers[i].pc) { RestOn(s, i, e, n); }
    Lexicographic(StagesOn(s, k, n), StagesOn(t, k, n), RestlessOn(s, k, n), RestlessOn(t, k, n), n);
  }

  lemma OwnGoDescends(s: State, i: nat, choice: Choice, n: nat)
    requires Core(s) && Formed(s) && NoRepeats(s.order) && Possible(s, Go(i, choice))
    requires i < n <= |s.workers| && Leaving(s.workers[i])
    ensures |Next(s, Go(i, choice)).workers| == |s.workers|
    ensures MeasureOn(Next(s, Go(i, choice)), s.workers[i].key, n) < MeasureOn(s, s.workers[i].key, n)
  {
    hide Core, Around, Work, Commit, NoRepeats, Descends, WorkerOK, Shaped, Counted, Guarantee, MeasureOn, SameRun,
         Formed, Enabled, Leaving;
    CoreAround(s, i);
    var w, c := s.workers[i], s.cells[s.workers[i].key];
    WorkDescends(c, w, i, s.workers, s.pool, s.env, choice);
    WorkLegal(c, w, i, s.workers, s.pool, s.env, choice);
    CommitDescendsOn(s, i, Work(c, w, i, s.pool, s.env, choice), n);
  }

  // ---------------------------------------------------------------- draining goes on

  lemma LeavingStays(c: Cell, w: Worker, i: nat, ws: seq<Worker>, pool: Pool, env: Env, choice: Choice)
    requires Around(c, w, i, ws, pool, env) && Enabled(c, w, pool, env, choice) && Leaving(w)
    ensures var v := Work(c, w, i, pool, env, choice).worker; v.key == w.key && (v.pc.Done? || Leaving(v))
  {
    hide Shaped, History, Fits;
    PossiblePC(c, w, i, ws, pool, env);
  }

  lemma OwnGoDrains(s: Sound, i: nat, choice: Choice, k: Key, n: nat)
    requires Draining(s, k, n) && WorksOn(s, i, k) && Possible(s, Go(i, choice))
    ensures Draining(Apply(s, Go(i, choice)), k, n)
  {
    hide Core, Observed, Around, NoRepeats, Formed, Next, Work, SameRun, Enabled, Leaving;
    CoreListing(s);
    LiveFacts(s, i);
    GoKeepsRun(s, i, choice);
    LeavingStays(s.cells[k], s.workers[i], i, s.workers, s.pool, s.env, choice);
  }

  lemma OthersDrain(s: State, t: State, k: Key, n: nat)
    requires Draining(s, k, n) && KeepsOn(s, t, k)
    ensures Draining(t, k, n)
  {
    forall i: nat | WorksOn(t, i, k) ensures i < n && Leaving(t.workers[i]) {
      assert WorksOn(s, i, k);
    }
  }

  // A step of others that can wake k's goroutines.
  ghost predicate Stirred(s: Sound, step: Step, k: Key) {
    !MovesOn(s, step, k) && Signals(s, Apply(s, step), k)
  }

  // One step: k's own goroutines use up the measure, others raise it only by a signal.
  lemma StepOnTarget(s: Sound, step: Step, k: Key, n: nat)
    requires Draining(s, k, n) && !Joins(s, step, k)
    ensures Draining(Apply(s, step), k, n)
    ensures if MovesOn(s, step, k) && Possible(s, step) then MeasureOn(Apply(s, step), k, n) < MeasureOn(s, k, n)
      else MeasureOn(Apply(s, step), k, n) <= MeasureOn(s, k, n) + if Stirred(s, step, k) then 2 * n else 0
  {
    hide Core, Observed, NoRepeats, Formed, Next, Joins, KeepsOn, Signals, MeasureOn, Leaving;
    CoreListing(s);
    if MovesOn(s, step, k) && Possible(s, step) {
      OwnGoDrains(s, step.i, step.choice, k, n);
      OwnGoDescends(s, step.i, step.choice, n);
    } else if !MovesOn(s, step, k) {
      OthersKeepOn(s, step, k);
      OthersDrain(s, Apply(s, step), k, n);
      OthersMeasure(s, Apply(s, step), k, n);
    }
  }

  // ---------------------------------------------------------------- runs

  ghost predicate NobodyJoinsOn(s: Sound, steps: seq<Step>, k: Key) {
    steps == [] ||
    var front, last := steps[..|steps| - 1], steps[|steps| - 1];
    NobodyJoinsOn(s, front, k) && !Joins(Run(s, front), last, k)
  }

  // The steps of k's goroutines in a run ...
  ghost function OwnMoves(s: Sound, steps: seq<Step>, k: Key): nat {
    if steps == [] then 0
    else
      var front, last := steps[..|steps| - 1], steps[|steps| - 1];
      var t := Run(s, front);
      OwnMoves(s, front, k) + if MovesOn(t, last, k) && Possible(t, last) then 1 else 0
  }

  // ... and the steps of others that can wake them.
  ghost function SignalsTo(s: Sound, steps: seq<Step>, k: Key): nat {
    if steps == [] then 0
    else
      var front, last := steps[..|steps| - 1], steps[|steps| - 1];
      var t := Run(s, front);
      SignalsTo(s, front, k) + if Stirred(t, last, k) then 1 else 0
  }

  lemma {:induction false} StepsOnTarget(s: Sound, steps: seq<Step>, k: Key, n: nat)
    requires Draining(s, k, n) && NobodyJoinsOn(s, steps, k)
    ensures Draining(Run(s, steps), k, n)
    ensures OwnMoves(s, steps, k) + MeasureOn(Run(s, steps), k, n)
      <= MeasureOn(s, k, n) + 2 * n * SignalsTo(s, steps, k)
  {
    hide IsSound, Apply, Possible, MeasureOn, Joins, MovesOn, Stirred, Draining;
    if steps != [] {
      var front, last := steps[..|steps| - 1], steps[|steps| - 1];
      StepsOnTarget(s, front, k, n);
      StepOnTarget(Run(s, front), last, k, n);
      assert 2 * n * (SignalsTo(s, front, k) + 1) == 2 * n * SignalsTo(s, front, k) + 2 * n;
    }
  }

  // None of k's goroutines can take a step.
  ghost predicate StuckOn(s: State, k: Key) {
    forall i: nat, choice | WorksOn(s, i, k) :: !Possible(s, Go(i, choice))
  }

  lemma SomeoneMovesOn(s: Sound, i: nat, k: Key)
    requires WorksOn(s, i, k) && Leaving(s.workers[i])
    ensures !StuckOn(s, k)
  {
    hide Core, Observed, Leaving;
    LeavingMoves(s, i);
    var choice :| Enabled(s.cells[s.workers[i].key], s.workers[i], s.pool, s.env, choice);
    assert Possible(s, Go(i, choice));
  }

  lemma DrainedIsIdle(s: Sound, k: Key, n: nat)
    requires Draining(s, k, n) && StuckOn(s, k) && k in s.cells
    ensures !Busy(s.cells[k])
  {
    hide Core, Observed, Busy, Leaving, StuckOn;
    BusyMeansWorkedOn(s, k);
    if Busy(s.cells[k]) {
      var i: nat :| i < |s.workers| && !s.workers[i].pc.Done? && s.workers[i].key == k;
      SomeoneMovesOn(s, i, k);
    }
  }

  // The wait ends: from when a target's goroutines are on their way out, however they and all the others interleave,
  // as long as nobody starts anything on it, they take at most DrainBound steps, and 2 more each for every signal they
  // get; and where none of them can take another, the target is idle, or gone.
  lemma TargetDrains(s: Sound, steps: seq<Step>, k: Key)
    requires Draining(s, k, |s.workers|) && NobodyJoinsOn(s, steps, k)
    ensures OwnMoves(s, steps, k) <= DrainBound(|s.workers|) + 2 * |s.workers| * SignalsTo(s, steps, k)
    ensures var t := Run(s, steps); StuckOn(t, k) && k in t.cells ==> !Busy(t.cells[k])
  {
    hide IsSound, Apply, Run, NobodyJoinsOn, OwnMoves, SignalsTo, Draining, StuckOn, Busy, StagesOn, RestlessOn;
    var n := |s.workers|;
    StepsOnTarget(s, steps, k, n);
    MeasureOnBound(s, k, n);
    Monotone(StagesOn(s, k, n), 15 * n, 2 * n + 1);
    var t: Sound := Run(s, steps);
    if StuckOn(t, k) && k in t.cells { DrainedIsIdle(t, k, n); }
  }
}
