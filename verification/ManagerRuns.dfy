/**
 The manager carries out runs of the protocol: whatever step a goroutine, a caller or the outside world takes next, one
 of the manager's methods takes it, and afterwards the fields show what the protocol's run leads to.
 */
module ManagerRuns {
  import opened Text
  import opened JobState
  import opened JobSteps
  import opened JobRegistry
  import opened JobApi
  import opened JobInvariant
  import opened JobFrame
  import opened JobKeeps
  import opened JobRegistryKeeps
  import opened JobRuns
  import opened JobSafety
  import opened JobTables
  import opened JobManager

  // What happens to the manager next: a step of the protocol, where a stop gives the names of its targets.
  datatype Call = Does(step: Step) | Stops(names: seq<string>)

  function StepOf(s: State, call: Call): Step {
    match call
    case Does(step) => step
    case Stops(names) => StopKeys(Resolve(s.cells, s.order, names).0)
  }

  ghost predicate Accepted(s: State, call: Call) {
    Possible(s, StepOf(s, call)) && (call.Does? ==> !call.step.StopKeys?)
  }

  // ---------------------------------------------------------------- a goroutine's step

  // The sections goroutines of a kind run, and what the choice says there.
  predicate IsSection(kind: Owner, pc: PC, choice: Choice) {
    match kind
    case Queue =>
      && choice == Proceed
      && (pc.Claim? || pc.Slot? || pc.Begin? || pc.DropSlot? || pc.DropTarget? || pc.Finish?
          || (pc.Returned? && pc.result.success) || pc.Mark? || pc.Cancel? || pc.Exit?)
    case Keepalive =>
      if pc.Mark? then choice.Sampled?
      else
        && choice == Proceed
        && (pc.Claim? || pc.Slot? || pc.Begin? || pc.DropSlot? || pc.Finish? || pc.Cancel? || pc.Sleep? || pc.Exit?)
    case Adhoc =>
      if pc.Begin? then choice == Proceed || choice == SawCancelled else choice == Proceed && (pc.Slot? || pc.Exit?)
    case Nobody => false
  }

  lemma NextSection(c: Cell, w: Worker, i: nat, ws: seq<Worker>, pool: Pool, env: Env, choice: Choice)
    requires Around(c, w, i, ws, pool, env) && Enabled(c, w, pool, env, choice)
    ensures w.kind != Nobody && (Resumes(w) || IsSection(w.kind, w.pc, choice))
  {
    PossiblePC(c, w, i, ws, pool, env);
    hide Shaped, History;
  }

  // What a goroutine of the protocol is about to do can be done.
  lemma EntersNext(s: Sound, i: nat, choice: Choice)
    requires Possible(s, Go(i, choice))
    ensures Formed(s) && CanRun(s, i, choice) && Stepped(s, i, choice) == Apply(s, Go(i, choice))
    ensures s.workers[i].kind != Nobody
    ensures Resumes(s.workers[i]) || IsSection(s.workers[i].kind, s.workers[i].pc, choice)
    ensures s.workers[i].kind == Queue ==> OwnCancel(s, i)
  {
    hide Core, Observed, Work, Commit, Around, Stepped, IsSection, Resumes, Formed, OwnCancel, Apply;
    LiveFacts(s, i);
    SteppedIsApplied(s, i, choice);
    if s.workers[i].kind == Queue { SoundOwnCancel(s, i); }
    NextSection(s.cells[s.workers[i].key], s.workers[i], i, s.workers, s.pool, s.env, choice);
  }

  // Goroutine i, at pc, runs its next section.
  ghost predicate Turn(m: Manager, s: State, i: nat, choice: Choice, kind: Owner, pc: PC)
    reads m
  {
    && m.Enters(s, i, choice) && IsSection(kind, pc, choice)
    && s.workers[i].kind == kind && s.workers[i].pc == pc
  }

  method GoroutineAt(m: Manager, i: nat, ghost s: State) returns (w: Worker)
    requires m.Shows(s) && i < |s.workers|
    ensures w == s.workers[i]
  {
    w := m.goroutines[i];
  }

  method PerformQueue(m: Manager, i: nat, ghost s: State, choice: Choice, pc: PC)
    requires Turn(m, s, i, choice, Queue, pc) && OwnCancel(s, i)
    modifies m
    ensures m.Shows(Stepped(s, i, choice))
  {
    hide Manager.Shows, Formed, CanRun, Stepped, OwnCancel;
    match pc
    case Claim => m.AcquireQueueTarget(i, s);
    case Slot => m.Acquire(i, s);
    case Begin => m.BeginAttempt(i, s);
    case DropSlot => m.FreeSlot(i, s);
    case DropTarget => m.GiveTargetBack(i, s);
    case Finish(_) => m.FinishProcess(i, s);
    case Returned(_) => var _, _, _ := m.MarkSuccess(i, s);
    case Mark(_) => m.MarkFailure(i, s);
    case Cancel => m.MarkQueueCancelled(i, s);
    case Exit(_, _) => m.FinishQueueRun(i, s);
  }

  method PerformKeepalive(m: Manager, i: nat, ghost s: State, choice: Choice, pc: PC)
    requires Turn(m, s, i, choice, Keepalive, pc)
    modifies m
    ensures m.Shows(Stepped(s, i, choice))
  {
    hide Manager.Shows, Formed, CanRun, Stepped;
    match pc
    case Claim => m.BeginKeepaliveRequest(i, s);
    case Slot => m.Acquire(i, s);
    case Begin => m.ConfirmKeepaliveRequest(i, s);
    case DropSlot => m.FreeSlot(i, s);
    case Finish(_) => m.FinishProcess(i, s);
    case Mark(_) => m.FinishKeepaliveRequest(i, choice.delay, s);
    case Cancel => m.MarkKeepaliveCancelled(i, s);
    case Sleep => m.WaitKeepaliveNext(i, s);
    case Exit(_, _) => m.FinishKeepaliveRun(i, s);
  }

  method PerformAdhoc(m: Manager, i: nat, ghost s: State, choice: Choice, pc: PC)
    requires Turn(m, s, i, choice, Adhoc, pc)
    modifies m
    ensures m.Shows(Stepped(s, i, choice))
  {
    hide Manager.Shows, Formed, CanRun, Stepped;
    match pc
    case Slot => m.Acquire(i, s);
    case Begin => m.BeginAdhocRequest(i, choice == SawCancelled, s);
    case Exit(_, _) => m.FinishAdhocRequest(i, s);
  }

  // Goroutine i takes its next step: wakes up, comes back from its runner, or runs a section.
  method PerformGo(m: Manager, i: nat, choice: Choice, ghost s: Sound)
    requires m.Shows(s) && Possible(s, Go(i, choice))
    modifies m
    ensures m.Shows(Apply(s, Go(i, choice)))
  {
    hide IsSound, Apply, Manager.Shows, Formed, Enabled, Stepped, IsSection, OwnCancel, Possible;
    EntersNext(s, i, choice);
    var w := GoroutineAt(m, i, s);
    hide CanRun;
    if Resumes(w) { m.Resume(i, choice, s); }
    else if w.kind == Queue { PerformQueue(m, i, s, choice, w.pc); }
    else if w.kind == Keepalive { PerformKeepalive(m, i, s, choice, w.pc); }
    else { PerformAdhoc(m, i, s, choice, w.pc); }
  }

  // ---------------------------------------------------------------- any step

  // What the protocol does with a call that is accepted, and what the manager's methods may rely on.
  lemma CallIsApplied(s: Sound, call: Call)
    requires Accepted(s, call)
    ensures Formed(s) && NoRepeats(s.order) && Counts(s) && Possible(s, StepOf(s, call))
    ensures Apply(s, StepOf(s, call)) == Next(s, StepOf(s, call))
  {
    hide Core, Observed, Next, Possible, NoRepeats, Formed, Counts, StepOf;
    CoreListing(s);
    SoundCounts(s);
  }

  // A target is created, updated or deleted, with what has been persisted.
  method PerformCommit(m: Manager, step: Step, ghost s: State)
    requires m.Shows(s) && Formed(s) && NoRepeats(s.order) && Possible(s, step)
    requires step.Create? || step.Update? || step.Delete?
    modifies m
    ensures m.Shows(Next(s, step))
  {
    hide Manager.Shows, Formed, NoRepeats, Broadcast, JobRegistry.SortTargets, Normalize, Busy, KeyOf, FreshID,
         CellsRenamed, OrderRenamed, Without;
    match step
    case Create(target) => var _ := m.CreateTarget(target.name, Some(target), s);
    case Update(id, target) => var _ := m.UpdateTarget(id, target.name, Some(target), s);
    case Delete(id) => var _ := m.DeleteTarget(id, true, s);
  }

  // A caller starts, prepares, joins, reserves or stops.
  method PerformCaller(m: Manager, step: Step, ghost s: State)
    requires m.Shows(s) && Formed(s) && NoRepeats(s.order) && Counts(s) && Possible(s, step)
    requires || step.Prepare? || step.Join? || step.StartQueueRun? || step.StartKeepaliveRun? || step.StopID?
             || step.Reserve? || step.HangUp?
    modifies m
    ensures m.Shows(Next(s, step))
  {
    hide Manager.Shows, Formed, NoRepeats, Counts, JobApi.PrepareMode, JobApi.JoinQueue, StartQueue, StartKeepalive,
         JobApi.StopByID, JobApi.ReserveAdhoc, DropRequest, StartQueueOutcome, StartKeepaliveOutcome, ReserveOutcome,
         KeyOf;
    match step
    case Prepare(k, desired) => var _ := m.PrepareMode(k, desired, s);
    case Join(k, sub) => var _ := m.JoinQueue(k, sub, s);
    case StartQueueRun(k, sub) => var _ := m.LaunchQueue(k, sub, s);
    case StartKeepaliveRun(k) => var _ := m.LaunchKeepalive(k, s);
    case StopID(id) => var _ := m.StopByID(id, s);
    case Reserve(id) => var _ := m.ReserveAdhoc(id, s);
    case HangUp(i) => m.HangUp(i, s);
  }

  // New settings, shutdown, observers, the clock, the root context.
  method PerformOther(m: Manager, step: Step, ghost s: State)
    requires m.Shows(s) && Formed(s) && NoRepeats(s.order) && Possible(s, step)
    requires || step.Settings? || step.Shutdown? || step.Subscribe? || step.Close? || step.Take? || step.Tick?
             || step.CancelRoot?
    modifies m
    ensures m.Shows(Next(s, step))
  {
    hide Manager.Shows, Formed, NoRepeats, JobApi.UpdateSettings, JobApi.BeginShutdown, JobApi.Observe, Unsubscribe,
         Receive, AreSamples, JobState.Snapshot;
    match step
    case Settings(minimum, maximum, parallel, message, samples) =>
      m.UpdateSettings(minimum, maximum, parallel, message, samples, s);
    case Shutdown => m.BeginShutdown(s);
    case Subscribe(buffer) => var _, _ := m.Subscribe(buffer, s);
    case Close(stream) => m.CloseSubscription(stream, s);
    case Take(stream) => var _ := m.TakeEvent(stream, s);
    case Tick(elapsed) => m.Elapse(elapsed, s);
    case CancelRoot => m.CancelRootContext(s);
  }

  method PerformStop(m: Manager, names: seq<string>, ghost s: State)
    requires m.Shows(s) && Formed(s) && NoRepeats(s.order) && Counts(s) && Possible(s, StepOf(s, Stops(names)))
    modifies m
    ensures m.Shows(Next(s, StepOf(s, Stops(names))))
  {
    hide Manager.Shows, Formed, NoRepeats, Counts, JobApi.Stop, Resolve;
    var _, _, _ := m.Stop(names, s);
  }

  // Whatever comes next, the manager has a method for it, and ends up where the protocol says.
  method Perform(m: Manager, call: Call, ghost s: Sound)
    requires m.Shows(s) && Accepted(s, call)
    modifies m
    ensures m.Shows(Apply(s, StepOf(s, call)))
  {
    hide IsSound, Apply, Manager.Shows, Formed, NoRepeats, Counts, Next, Possible, Resolve;
    CallIsApplied(s, call);
    match call
    case Stops(names) => PerformStop(m, names, s);
    case Does(step) =>
      if step.Go? { PerformGo(m, step.i, step.choice, s); }
      else if step.Create? || step.Update? || step.Delete? { PerformCommit(m, step, s); }
      else if step.Settings? || step.Shutdown? || step.Subscribe? || step.Close? || step.Take? || step.Tick?
              || step.CancelRoot? {
        PerformOther(m, step, s);
      } else { PerformCaller(m, step, s); }
  }

  // ---------------------------------------------------------------- whole runs

  // The steps the calls amount to, from s on.
  ghost function StepsOf(s: Sound, calls: seq<Call>): (steps: seq<Step>)
    ensures |steps| == |calls|
  {
    if calls == [] then []
    else
      var front := StepsOf(s, calls[..|calls| - 1]);
      front + [StepOf(Run(s, front), calls[|calls| - 1])]
  }

  // Each of them is accepted when it comes.
  ghost predicate AllAccepted(s: Sound, calls: seq<Call>) {
    calls == [] ||
    var front, last := calls[..|calls| - 1], calls[|calls| - 1];
    AllAccepted(s, front) && Accepted(Run(s, StepsOf(s, front)), last)
  }

  lemma {:induction false} AcceptedSoFar(s: Sound, calls: seq<Call>, n: nat)
    requires AllAccepted(s, calls) && n <= |calls|
    ensures AllAccepted(s, calls[..n])
  {
    hide IsSound, Accepted, StepsOf, Run;
    if n == |calls| { assert calls[..n] == calls; }
    else {
      AcceptedSoFar(s, calls[..|calls| - 1], n);
      assert calls[..|calls| - 1][..n] == calls[..n];
    }
  }

  lemma OneMoreCall(s: Sound, calls: seq<Call>, n: nat)
    requires AllAccepted(s, calls) && n < |calls|
    ensures var t := Run(s, StepsOf(s, calls[..n]));
      && Accepted(t, calls[n])
      && Run(s, StepsOf(s, calls[..n + 1])) == Apply(t, StepOf(t, calls[n]))
  {
    hide IsSound, Apply, Accepted, StepOf;
    AcceptedSoFar(s, calls, n + 1);
    assert calls[..n + 1][..n] == calls[..n];
    var front := StepsOf(s, calls[..n]);
    var step := StepOf(Run(s, front), calls[n]);
    assert (front + [step])[..|front|] == front;
  }

  // Any run: after it the manager shows the state the protocol's run leads to, of which everything proved about runs
  // holds.
  method PerformAll(m: Manager, calls: seq<Call>, ghost s: Sound)
    requires m.Shows(s) && AllAccepted(s, calls)
    modifies m
    ensures m.Shows(Run(s, StepsOf(s, calls)))
  {
    hide IsSound, Apply, Manager.Shows, Accepted, StepOf, AllAccepted;
    assert Run(s, StepsOf(s, calls[..0])) == s;
    hide Run, StepsOf;
    for n := 0 to |calls|
      invariant m.Shows(Run(s, StepsOf(s, calls[..n])))
    {
      OneMoreCall(s, calls, n);
      Perform(m, calls[n], Run(s, StepsOf(s, calls[..n])));
    }
    assert calls[..|calls|] == calls;
  }
}
