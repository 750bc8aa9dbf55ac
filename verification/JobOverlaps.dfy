/**
 Three things the protocol does not promise: one goroutine per mode and target, no ad-hoc request on a target whose mode
 is on, and no more slots in use than the limit. For each the step that breaks it, exactly, the runs that keep it,
 exactly, and a run of the program that breaks it.
 */
module JobOverlaps {
  import opened Text
  import opened Streams
  import opened JobState
  import opened JobSteps
  import opened JobRegistry
  import opened JobApi
  import opened JobInvariant
  import opened JobRegistryKeeps
  import opened JobRuns
  import opened JobSafety
  import opened JobStarts

  // ---------------------------------------------------------------- exactly when

  // A start that finds a goroutine of its mode still on the target.
  predicate Overlaps(s: State, step: Step, k: Key, mode: Owner) {
    Starts(s, step, k, mode) && WorkersAt(s, k, mode) == 1
  }

  // The mode is on while an ad-hoc request owns the target.
  predicate Shared(s: State, k: Key, mode: Owner) {
    k in s.cells && Active(s.cells[k], mode) && s.cells[k].arbiter.owner == Adhoc
  }

  // A start that finds an ad-hoc request on the target.
  predicate SlipsPast(s: State, step: Step, k: Key, mode: Owner) {
    Starts(s, step, k, mode) && k in s.cells && s.cells[k].arbiter.owner == Adhoc
  }

  // A second goroutine of a mode comes from a start that finds the first one there, and from nothing else.
  lemma OverlapsComeFromStarts(s: Sound, step: Step, k: Key, mode: Owner)
    requires IsMode(mode) && WorkersAt(s, k, mode) <= 1
    ensures WorkersAt(Apply(s, step), k, mode) > 1 <==> Overlaps(s, step, k, mode)
  {
    StepIsSeen(s, step, k);
    hide IsSound, Apply, StartQueueOutcome, StartKeepaliveOutcome;
  }

  // A mode is on beside an ad-hoc request through a start that finds the request there, and through nothing else.
  lemma SharingComesFromStarts(s: Sound, step: Step, k: Key, mode: Owner)
    requires IsMode(mode) && !Shared(s, k, mode)
    ensures Shared(Apply(s, step), k, mode) <==> SlipsPast(s, step, k, mode)
  {
    StepIsSeen(s, step, k);
    hide IsSound, Apply, StartQueueOutcome, StartKeepaliveOutcome;
  }

  // Over a whole run: the count stays at one or below exactly if no start on the way finds a goroutine there.
  lemma {:induction false} OneAtATime(s: Sound, steps: seq<Step>, k: Key, mode: Owner)
    requires IsMode(mode) && WorkersAt(s, k, mode) <= 1
    ensures (forall n | 0 <= n <= |steps| :: WorkersAt(Run(s, steps[..n]), k, mode) <= 1)
      <==> (forall n | 0 <= n < |steps| :: !Overlaps(Run(s, steps[..n]), steps[n], k, mode))
  {
    hide IsSound, Apply, Overlaps, WorkersAt;
    if steps != [] {
      var front, last := steps[..|steps| - 1], steps[|steps| - 1];
      assert forall n | 0 <= n <= |front| :: front[..n] == steps[..n];
      assert steps[..|steps|] == steps;
      OneAtATime(s, front, k, mode);
      if WorkersAt(Run(s, front), k, mode) <= 1 { OverlapsComeFromStarts(Run(s, front), last, k, mode); }
      assert front[..|front|] == front;
    }
  }

  lemma {:induction false} NeverShared(s: Sound, steps: seq<Step>, k: Key, mode: Owner)
    requires IsMode(mode) && !Shared(s, k, mode)
    ensures (forall n | 0 <= n <= |steps| :: !Shared(Run(s, steps[..n]), k, mode))
      <==> (forall n | 0 <= n < |steps| :: !SlipsPast(Run(s, steps[..n]), steps[n], k, mode))
  {
    hide IsSound, Apply, Shared, SlipsPast;
    if steps != [] {
      var front, last := steps[..|steps| - 1], steps[|steps| - 1];
      assert forall n | 0 <= n <= |front| :: front[..n] == steps[..n];
      assert steps[..|steps|] == steps;
      NeverShared(s, front, k, mode);
      if !Shared(Run(s, front), k, mode) { SharingComesFromStarts(Run(s, front), last, k, mode); }
      assert front[..|front|] == front;
    }
  }

  predicate StartsIdle(s: State, step: Step, k: Key, mode: Owner) {
    Starts(s, step, k, mode) ==> k in s.cells && !Busy(s.cells[k])
  }

  // So neither happens in a run whose starts of k all find it idle.
  lemma IdleStartsAreAlone(s: Sound, steps: seq<Step>, k: Key, mode: Owner)
    requires IsMode(mode) && WorkersAt(s, k, mode) <= 1 && !Shared(s, k, mode)
    requires forall n | 0 <= n < |steps| :: StartsIdle(Run(s, steps[..n]), steps[n], k, mode)
    ensures forall n | 0 <= n <= |steps| ::
      WorkersAt(Run(s, steps[..n]), k, mode) <= 1 && !Shared(Run(s, steps[..n]), k, mode)
  {
    OneAtATime(s, steps, k, mode);
    NeverShared(s, steps, k, mode);
    forall n | 0 <= n < |steps|
      ensures !Overlaps(Run(s, steps[..n]), steps[n], k, mode) && !SlipsPast(Run(s, steps[..n]), steps[n], k, mode)
    {
      assert StartsIdle(Run(s, steps[..n]), steps[n], k, mode);
      hide IsSound, Run, Starts;
    }
  }

  lemma PrepareIsApplied(s: Sound, k: Key, mode: Owner)
    ensures Formed(s) && Apply(s, Prepare(k, mode)) == PrepareMode(s, k, mode).0
  {
    hide Core, Observed, PrepareMode, NoRepeats, Formed;
    CoreListing(s);
  }

  // That is how prepareMode leaves a target it lets a caller start, and nobody of the mode was there before: for an
  // overlap it takes something in between.
  lemma PreparedIsIdle(s: Sound, k: Key, mode: Owner, sub: Subscriber)
    requires IsMode(mode)
    ensures Formed(s)
    ensures PrepareMode(s, k, mode).1 == Ready ==>
      StartsIdle(Apply(s, Prepare(k, mode)), StartStep(k, mode, sub), k, mode) && WorkersAt(s, k, mode) <= 0
  {
    hide IsSound, Apply, Formed, Snapshot, Publish;
    PrepareIsApplied(s, k, mode);
  }

  // ---------------------------------------------------------------- runs of the program

  // Callers of startQueue or startKeepalive that prepareMode has let through and that have yet to take their second
  // section.
  ghost function Admitted(s: Sound, steps: seq<Step>, k: Key, mode: Owner): int {
    if steps == [] then 0
    else
      var front, last := steps[..|steps| - 1], steps[|steps| - 1];
      CoreListing(Run(s, front));
      Admitted(s, front, k, mode)
      + (if last == Prepare(k, mode) && PrepareMode(Run(s, front), k, mode).1 == Ready then 1 else 0)
      - (if IsStart(last, k, mode) then 1 else 0)
  }

  // Every second section is that of a caller prepareMode has let through: what the program's starts keep to.
  ghost predicate Called(s: Sound, steps: seq<Step>) {
    steps == [] ||
    var front, last := steps[..|steps| - 1], steps[|steps| - 1];
    && Called(s, front)
    && (last.StartQueueRun? ==> Admitted(s, front, last.key, Queue) > 0)
    && (last.StartKeepaliveRun? ==> Admitted(s, front, last.key, Keepalive) > 0)
  }

  lemma Further(s: Sound, steps: seq<Step>, step: Step)
    ensures Run(s, steps + [step]) == Apply(Run(s, steps), step)
    ensures Called(s, steps + [step]) <==>
      && Called(s, steps)
      && (step.StartQueueRun? ==> Admitted(s, steps, step.key, Queue) > 0)
      && (step.StartKeepaliveRun? ==> Admitted(s, steps, step.key, Keepalive) > 0)
  {
    hide IsSound, Apply, Admitted;
    assert (steps + [step])[..|steps|] == steps;
  }

  lemma AdmittedFurther(s: Sound, steps: seq<Step>, step: Step, k: Key, mode: Owner)
    ensures Formed(Run(s, steps))
    ensures Admitted(s, steps + [step], k, mode) == Admitted(s, steps, k, mode)
      + (if step == Prepare(k, mode) && PrepareMode(Run(s, steps), k, mode).1 == Ready then 1 else 0)
      - (if IsStart(step, k, mode) then 1 else 0)
  {
    hide Core, Observed, Apply, PrepareMode, Formed;
    CoreListing(Run(s, steps));
    assert (steps + [step])[..|steps|] == steps;
  }

  // A run of the program in which a caller has just been let through.
  lemma PrepareNext(s: Sound, steps: seq<Step>, k: Key, mode: Owner)
    requires Called(s, steps)
    ensures Formed(Run(s, steps))
    ensures PrepareMode(Run(s, steps), k, mode) == (Run(s, steps), Ready) ==>
      var after := steps + [Prepare(k, mode)];
      && Run(s, after) == Run(s, steps) && Called(s, after)
      && Admitted(s, after, k, mode) == Admitted(s, steps, k, mode) + 1
  {
    hide IsSound, Apply, Formed, PrepareMode, Run, Called, Admitted;
    Further(s, steps, Prepare(k, mode));
    AdmittedFurther(s, steps, Prepare(k, mode), k, mode);
    PrepareIsApplied(Run(s, steps), k, mode);
  }

  // ... or takes its second section.
  lemma StartNext(s: Sound, steps: seq<Step>, k: Key, mode: Owner, sub: Subscriber)
    requires Called(s, steps) && IsMode(mode) && Admitted(s, steps, k, mode) > 0
    ensures var after := steps + [StartStep(k, mode, sub)];
      && Run(s, after) == Apply(Run(s, steps), StartStep(k, mode, sub)) && Called(s, after)
      && Admitted(s, after, k, mode) == Admitted(s, steps, k, mode) - 1
  {
    hide IsSound, Apply, Formed, PrepareMode, Run, Called, Admitted;
    Further(s, steps, StartStep(k, mode, sub));
    AdmittedFurther(s, steps, StartStep(k, mode, sub), k, mode);
  }

  lemma OtherNext(s: Sound, steps: seq<Step>, step: Step, k: Key, mode: Owner)
    requires Called(s, steps) && (step.StopKeys? || step.Reserve? || step.Go? || step.Settings?)
    ensures var after := steps + [step];
      && Run(s, after) == Apply(Run(s, steps), step) && Called(s, after)
      && Admitted(s, after, k, mode) == Admitted(s, steps, k, mode)
  {
    hide IsSound, Apply, Formed, PrepareMode, Run, Called, Admitted;
    Further(s, steps, step);
    AdmittedFurther(s, steps, step, k, mode);
  }

  // prepareMode lets a caller through to an idle target, and touches nothing.
  lemma IdleIsReady(s: Sound, k: Key, mode: Owner)
    requires k in s.cells && !Busy(s.cells[k]) && !s.env.shuttingDown
    ensures Vacant(s.cells[k]) && Formed(s) && PrepareMode(s, k, mode) == (s, Ready)
  {
    CoreListing(s);
    NotBusyIsIdle(s, k);
    hide IsSound, Core, Observed, Formed, Broadcast;
  }

  // ---------------------------------------------------------------- the runs that break them

  lemma StartKeepsEnv(s: Sound, k: Key, mode: Owner, sub: Subscriber)
    ensures Apply(s, StartStep(k, mode, sub)).env == s.env
  {
    hide Core, Observed, Snapshot, Publish, NoRepeats, WithSubscriber;
    CoreListing(s);
  }

  lemma StartWorks(s: Sound, k: Key, mode: Owner, sub: Subscriber)
    requires IsMode(mode) && k in s.cells && !s.env.shuttingDown && !Active(s.cells[k], mode)
    requires var other := if mode == Queue then Keepalive else Queue;
      !Active(s.cells[k], other) && WorkersAt(s, k, other) == 0
    ensures var t := Apply(s, StartStep(k, mode, sub));
      k in t.cells && RunStarted(s.cells[k], t.cells[k], mode) && t.env == s.env
  {
    StepIsSeen(s, StartStep(k, mode, sub), k);
    StartKeepsEnv(s, k, mode, sub);
    hide IsSound, Apply, RunStarted;
  }

  lemma StopStepCells(s: Sound, k: Key)
    ensures Formed(s)
    ensures Apply(s, StopKeys([k])).cells == StopTarget(s, k).cells && Apply(s, StopKeys([k])).env == s.env
  {
    hide Core, Observed, NoRepeats, Formed, StopTarget, Snapshot, Publish, AnyStoppable;
    CoreListing(s);
    StopTargetLeavesPool(s, k);
    assert [k][..0] == [];
    assert StopAll(s, [k][..0]) == s;
  }

  // A stop turns the modes off; the goroutines are still counted.
  lemma StopWorks(s: Sound, k: Key)
    requires k in s.cells && s.cells[k].arbiter.owner == Nobody
    ensures var t := Apply(s, StopKeys([k]));
      && k in t.cells && !Active(t.cells[k], Queue) && !Active(t.cells[k], Keepalive) && t.env == s.env
      && WorkersAt(t, k, Queue) == WorkersAt(s, k, Queue) && WorkersAt(t, k, Keepalive) == WorkersAt(s, k, Keepalive)
  {
    StopStepCells(s, k);
    hide IsSound, Apply, Formed;
  }

  // What two callers of Start and one of Stop can do to an idle target: both get through prepareMode, the first starts
  // its run, that is stopped, and the second starts its own before the first run's goroutine has returned.
  function OverlappingRun(k: Key, mode: Owner, sub: Subscriber): seq<Step> {
    var prepare, start := Prepare(k, mode), StartStep(k, mode, sub);
    [prepare, prepare, start, StopKeys([k]), start]
  }

  lemma RunNothing(s: Sound, k: Key, mode: Owner)
    ensures Run(s, []) == s && Called(s, []) && Admitted(s, [], k, mode) == 0
  {
  }

  lemma OverlappingRunIsCalled(s: Sound, k: Key, mode: Owner, sub: Subscriber)
    requires IsMode(mode) && Formed(s) && PrepareMode(s, k, mode) == (s, Ready)
    ensures Called(s, OverlappingRun(k, mode, sub))
    ensures var start := StartStep(k, mode, sub);
      Run(s, OverlappingRun(k, mode, sub)) == Apply(Apply(Apply(s, start), StopKeys([k])), start)
  {
    hide IsSound, Apply, Formed, Called, Admitted, PrepareMode, Run, StartStep;
    var prepare, start := Prepare(k, mode), StartStep(k, mode, sub);
    RunNothing(s, k, mode);
    PrepareNext(s, [], k, mode);
    assert [] + [prepare] == [prepare];
    PrepareNext(s, [prepare], k, mode);
    assert [prepare] + [prepare] == [prepare, prepare];
    StartNext(s, [prepare, prepare], k, mode, sub);
    assert [prepare, prepare] + [start] == [prepare, prepare, start];
    OtherNext(s, [prepare, prepare, start], StopKeys([k]), k, mode);
    assert [prepare, prepare, start] + [StopKeys([k])] == [prepare, prepare, start, StopKeys([k])];
    StartNext(s, [prepare, prepare, start, StopKeys([k])], k, mode, sub);
    assert [prepare, prepare, start, StopKeys([k])] + [start] == OverlappingRun(k, mode, sub);
  }

  // Two goroutines of one mode can work on a target at once, in a run of the program: whoever asks prepareMode once the
  // first is there has to wait (PreparedIsIdle), but the second caller asked before. The two have different run
  // numbers, and only one is current.
  lemma WorkersCanOverlap(s: Sound, k: Key, mode: Owner, sub: Subscriber)
    requires IsMode(mode) && k in s.cells && !Busy(s.cells[k]) && !s.env.shuttingDown
    ensures Formed(s) && PrepareMode(s, k, mode) == (s, Ready)
    ensures Called(s, OverlappingRun(k, mode, sub))
    ensures var t := Run(s, OverlappingRun(k, mode, sub));
      WorkersAt(s, k, mode) == 0 && WorkersAt(t, k, mode) == 2 && Active(t.cells[k], mode)
  {
    hide IsSound, Apply, Formed, Called, PrepareMode, Run, StartStep;
    IdleIsReady(s, k, mode);
    OverlappingRunIsCalled(s, k, mode, sub);
    hide Busy, OverlappingRun;
    var start := StartStep(k, mode, sub);
    StartWorks(s, k, mode, sub);
    var t: Sound := Apply(s, start);
    StopWorks(t, k);
    StartWorks(Apply(t, StopKeys([k])), k, mode, sub);
  }

  // What RunAdhoc can do to a caller of Start: reserve the target after prepareMode let that one through.
  function SlippingRun(s: State, k: Key, mode: Owner, sub: Subscriber): seq<Step>
    requires k in s.cells
  {
    [Prepare(k, mode), Reserve(s.cells[k].target.id), StartStep(k, mode, sub)]
  }

  lemma SlippingRunIsCalled(s: Sound, k: Key, mode: Owner, sub: Subscriber)
    requires IsMode(mode) && k in s.cells && Formed(s) && PrepareMode(s, k, mode) == (s, Ready)
    ensures Called(s, SlippingRun(s, k, mode, sub))
    ensures Run(s, SlippingRun(s, k, mode, sub))
      == Apply(Apply(s, Reserve(s.cells[k].target.id)), StartStep(k, mode, sub))
  {
    hide IsSound, Apply, Formed, Called, Admitted, PrepareMode, Run, StartStep;
    var prepare, reserve, start := Prepare(k, mode), Reserve(s.cells[k].target.id), StartStep(k, mode, sub);
    RunNothing(s, k, mode);
    PrepareNext(s, [], k, mode);
    assert [] + [prepare] == [prepare];
    OtherNext(s, [prepare], reserve, k, mode);
    assert [prepare] + [reserve] == [prepare, reserve];
    StartNext(s, [prepare, reserve], k, mode, sub);
    assert [prepare, reserve] + [start] == SlippingRun(s, k, mode, sub);
  }

  lemma ReserveIsApplied(s: Sound, id: int)
    ensures Formed(s) && Apply(s, Reserve(id)) == ReserveAdhoc(s, id)
  {
    hide Core, Observed, ReserveAdhoc, NoRepeats, Formed;
    CoreListing(s);
  }

  lemma ReserveOwns(s: Sound, k: Key)
    requires k in s.cells && !Busy(s.cells[k]) && !s.env.shuttingDown && !s.env.rootDone
    ensures var t := Apply(s, Reserve(s.cells[k].target.id));
      && k in t.cells && t.cells[k].arbiter.owner == Adhoc && t.env.shuttingDown == s.env.shuttingDown
      && t.cells[k].job == s.cells[k].job && t.cells[k].keepalive == s.cells[k].keepalive
  {
    ReserveIsApplied(s, s.cells[k].target.id);
    CoreIsRegistered(s);
    hide IsSound, Apply, Formed, Snapshot, Publish, Busy, Normalize, InOrder, NoRepeats;
    var found := KeyOf(s.cells, s.order, s.cells[k].target.id);
    assert found == Some(k);
  }

  // Then the target is owned by the ad-hoc request while its mode is on, in a run of the program. (Runner calls still
  // do not overlap: SingleFlight.)
  lemma AdhocCanSlipIn(s: Sound, k: Key, mode: Owner, sub: Subscriber)
    requires IsMode(mode) && k in s.cells && !Busy(s.cells[k]) && !s.env.shuttingDown && !s.env.rootDone
    ensures Formed(s) && PrepareMode(s, k, mode) == (s, Ready)
    ensures Called(s, SlippingRun(s, k, mode, sub))
    ensures !Shared(s, k, mode) && Shared(Run(s, SlippingRun(s, k, mode, sub)), k, mode)
  {
    hide IsSound, Apply, Formed, Called, PrepareMode, Run, StartStep;
    IdleIsReady(s, k, mode);
    SlippingRunIsCalled(s, k, mode, sub);
    ReserveOwns(s, k);
    hide Busy, SlippingRun;
    StartWorks(Apply(s, Reserve(s.cells[k].target.id)), k, mode, sub);
  }

  // ---------------------------------------------------------------- the limit

  predicate WithinLimit(s: State) {
    s.pool.slots <= s.env.maxParallel
  }

  // The step lowers the limit below what is in use.
  ghost predicate Undercuts(s: State, step: Step) {
    Possible(s, step) && Lowers(s, step) && step.parallel < s.pool.slots
  }

  // Exactly when the slots in use exceed the limit after a step that started within it.
  lemma ExcessComesFromLowering(s: Sound, step: Step)
    requires WithinLimit(s)
    ensures !WithinLimit(Apply(s, step)) <==> Undercuts(s, step)
  {
    hide Core, Observed, Next, AreSamples, Formed, NoRepeats;
    CoreListing(s);
    if Possible(s, step) && Lowers(s, step) { CallersLeaveSlots(s, step); }
    else if Possible(s, step) {
      ExcessGrowsOnlyByLowering(s, step);
      hide Apply, Possible;
    }
  }

  // Over a whole run: the slots in use stay within the limit exactly if no step on the way undercuts them.
  lemma {:induction false} NeverExceeded(s: Sound, steps: seq<Step>)
    requires WithinLimit(s)
    ensures (forall n | 0 <= n <= |steps| :: WithinLimit(Run(s, steps[..n])))
      <==> (forall n | 0 <= n < |steps| :: !Undercuts(Run(s, steps[..n]), steps[n]))
  {
    hide IsSound, Apply, Undercuts, WithinLimit;
    if steps != [] {
      var front, last := steps[..|steps| - 1], steps[|steps| - 1];
      assert forall n | 0 <= n <= |front| :: front[..n] == steps[..n];
      assert steps[..|steps|] == steps;
      NeverExceeded(s, front);
      if WithinLimit(Run(s, front)) { ExcessComesFromLowering(Run(s, front), last); }
      assert front[..|front|] == front;
    }
  }

  // One caller's run up to where it has its slot: `n` is the goroutine that is started.
  function SlotRun(k: Key, mode: Owner, sub: Subscriber, n: nat): seq<Step> {
    [Prepare(k, mode), StartStep(k, mode, sub), Go(n, Proceed), Go(n, Proceed)]
  }

  // Goroutine n, of a run that has just been started, is alone on its target and about to claim it.
  predicate About(s: State, n: nat, k: Key, mode: Owner) {
    && n < |s.workers| && k in s.cells && s.workers[n].kind == mode && s.workers[n].key == k && s.workers[n].pc == Claim
    && (if mode == Queue then QueueCurrent(s.cells[k].job, s.workers[n])
        else KeepaliveCurrent(s.cells[k].keepalive, s.workers[n]) && s.cells[k].job.state != Running)
    && s.cells[k].arbiter.owner == Nobody
  }

  // What is not on k is as it was, and so are the settings.
  predicate ElsewhereSame(s: State, t: State, k: Key) {
    && t.cells.Keys == s.cells.Keys && (forall l <- s.cells :: l != k ==> t.cells[l] == s.cells[l]) && t.env == s.env
  }

  lemma StartIsAbout(s: Sound, k: Key, mode: Owner, sub: Subscriber)
    requires IsMode(mode) && k in s.cells && Vacant(s.cells[k]) && !s.env.shuttingDown
    ensures var t := Apply(s, StartStep(k, mode, sub));
      && About(t, |s.workers|, k, mode) && |t.workers| == |s.workers| + 1 && t.pool.slots == s.pool.slots
      && ElsewhereSame(s, t, k)
  {
    hide Core, Observed, NoRepeats, Formed, Snapshot, Publish, WithSubscriber;
    CoreListing(s);
  }

  lemma ClaimingGoes(s: Sound, n: nat, k: Key, mode: Owner)
    requires IsMode(mode) && About(s, n, k, mode)
    ensures var t := Apply(s, Go(n, Proceed));
      && |t.workers| == |s.workers| && t.workers[n] == s.workers[n].(pc := Slot)
      && t.pool.slots == s.pool.slots && ElsewhereSame(s, t, k)
  {
    hide Core, Observed, NoRepeats, Formed, Snapshot, Publish;
    CoreListing(s);
  }

  lemma AcquiringGoes(s: Sound, n: nat, k: Key)
    requires n < |s.workers| && s.workers[n].key == k && k in s.cells && s.workers[n].pc == Slot
    requires s.pool.slots < s.env.maxParallel
    ensures var t := Apply(s, Go(n, Proceed));
      |t.workers| == |s.workers| && t.pool.slots == s.pool.slots + 1 && ElsewhereSame(s, t, k)
  {
    hide Core, Observed, NoRepeats, Formed, Snapshot, Publish;
    CoreListing(s);
  }

  lemma SlotIsTaken(s: Sound, k: Key, mode: Owner, sub: Subscriber)
    requires IsMode(mode) && k in s.cells && !Busy(s.cells[k]) && !s.env.shuttingDown
    requires s.pool.slots < s.env.maxParallel
    ensures var go := Go(|s.workers|, Proceed);
      var t := Apply(Apply(Apply(s, StartStep(k, mode, sub)), go), go);
      |t.workers| == |s.workers| + 1 && t.pool.slots == s.pool.slots + 1 && ElsewhereSame(s, t, k)
  {
    IdleIsReady(s, k, mode);
    hide IsSound, Apply, Vacant, Busy, Formed, StartStep, PrepareMode;
    var n := |s.workers|;
    StartIsAbout(s, k, mode, sub);
    var t1: Sound := Apply(s, StartStep(k, mode, sub));
    ClaimingGoes(t1, n, k, mode);
    var t2: Sound := Apply(t1, Go(n, Proceed));
    AcquiringGoes(t2, n, k);
  }

  // Nobody takes a second section that was not let through.
  lemma {:induction false} AdmittedIsNatural(s: Sound, steps: seq<Step>, k: Key, mode: Owner)
    requires Called(s, steps) && IsMode(mode)
    ensures Admitted(s, steps, k, mode) >= 0
  {
    hide IsSound, Apply, PrepareMode, Run, Formed;
    if steps != [] { AdmittedIsNatural(s, steps[..|steps| - 1], k, mode); }
  }

  lemma SlotRunIsCalled(s: Sound, steps: seq<Step>, k: Key, mode: Owner, sub: Subscriber, n: nat)
    requires IsMode(mode) && Called(s, steps) && Formed(Run(s, steps))
    requires PrepareMode(Run(s, steps), k, mode) == (Run(s, steps), Ready)
    ensures var after, go := steps + SlotRun(k, mode, sub, n), Go(n, Proceed);
      && Called(s, after) && Run(s, after) == Apply(Apply(Apply(Run(s, steps), StartStep(k, mode, sub)), go), go)
  {
    hide IsSound, Apply, Formed, Called, Admitted, PrepareMode, Run, StartStep;
    var prepare, start, go := Prepare(k, mode), StartStep(k, mode, sub), Go(n, Proceed);
    AdmittedIsNatural(s, steps, k, mode);
    PrepareNext(s, steps, k, mode);
    StartNext(s, steps + [prepare], k, mode, sub);
    OtherNext(s, steps + [prepare] + [start], go, k, mode);
    OtherNext(s, steps + [prepare] + [start] + [go], go, k, mode);
    assert steps + SlotRun(k, mode, sub, n) == steps + [prepare] + [start] + [go] + [go];
  }

  // The settings as they are, but for a limit of one.
  function LowerToOne(s: State): Step {
    Settings(
      s.env.keepaliveMin, s.env.keepaliveMax, 1, s.env.successMessage, map k | k in s.cells :: s.env.keepaliveMin)
  }

  // Two targets are started and get a slot each; then the limit is lowered to one.
  function CrowdedRun(s: State, k: Key, l: Key, mode: Owner, sub: Subscriber): seq<Step> {
    SlotRun(k, mode, sub, |s.workers|) + SlotRun(l, mode, sub, |s.workers| + 1)
  }

  lemma LoweringUndercuts(s: Sound)
    requires WithinLimit(s) && s.pool.slots >= 2
    ensures Undercuts(s, LowerToOne(s))
    ensures Apply(s, LowerToOne(s)).env.maxParallel == 1 < Apply(s, LowerToOne(s)).pool.slots
  {
    assert Possible(s, LowerToOne(s));
    hide Core, Observed, Next, AreSamples, Formed, NoRepeats;
    CoreListing(s);
    CallersLeaveSlots(s, LowerToOne(s));
  }

  // The slots in use can exceed the limit, in a run of the program.
  lemma LimitCanBeExceeded(s: Sound, k: Key, l: Key, mode: Owner, sub: Subscriber)
    requires IsMode(mode) && k in s.cells && l in s.cells && k != l && !Busy(s.cells[k]) && !Busy(s.cells[l])
    requires !s.env.shuttingDown && s.pool.slots + 2 <= s.env.maxParallel
    ensures var t: Sound := Run(s, CrowdedRun(s, k, l, mode, sub));
      var run := CrowdedRun(s, k, l, mode, sub) + [LowerToOne(t)];
      && Called(s, run) && WithinLimit(t) && Undercuts(t, LowerToOne(t))
      && Run(s, run).env.maxParallel == 1 < Run(s, run).pool.slots
  {
    hide IsSound, Apply, Formed, Called, PrepareMode, Run, StartStep, SlotRun, Busy;
    PoolIsExact(s);
    var first := SlotRun(k, mode, sub, |s.workers|);
    RunNothing(s, k, mode);
    IdleIsReady(s, k, mode);
    SlotIsTaken(s, k, mode, sub);
    SlotRunIsCalled(s, [], k, mode, sub, |s.workers|);
    assert [] + first == first;
    var t1: Sound := Run(s, first);
    IdleIsReady(t1, l, mode);
    SlotIsTaken(t1, l, mode, sub);
    SlotRunIsCalled(s, first, l, mode, sub, |s.workers| + 1);
    var t: Sound := Run(s, CrowdedRun(s, k, l, mode, sub));
    LoweringUndercuts(t);
    OtherNext(s, CrowdedRun(s, k, l, mode, sub), LowerToOne(t), k, mode);
  }
}
