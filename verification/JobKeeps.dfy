/** Every step of a goroutine is legal: right about its own target, harmless to everyone else there. */
module JobKeeps {
  import opened JobState
  import opened JobSteps
  import opened JobInvariant
  import opened JobFrame

  // A run that is no longer current lets go of the target, if it has it, and ends.
  lemma LeaveLegal(c: Cell, w: Worker, i: nat, ws: seq<Worker>, pool: Pool, env: Env)
    requires Around(c, w, i, ws, pool, env) && !HoldsSlot(w) && !InProcess(w)
    requires w.kind == Queue || w.kind == Keepalive
    requires w.kind == Queue ==> !QueueCurrent(c.job, w)
    requires w.kind == Keepalive ==> !KeepaliveCurrent(c.keepalive, w)
    ensures Legal(c, w, i, ws, pool, env, Quiet(ReleaseFor(c, w), w, Exit(false, false), pool))
  {
    hide Counting, LastError, OnlyLastMaySucceed;
  }

  lemma AcquireSlotLegal(c: Cell, w: Worker, i: nat, ws: seq<Worker>, pool: Pool, env: Env)
    requires Around(c, w, i, ws, pool, env) && w.pc.Slot?
    ensures Legal(c, w, i, ws, pool, env, AcquireSlot(c, w, pool, env))
  {
    hide Counting, Shaped, LastError, OnlyLastMaySucceed;
    ShapeSurvives(c, w.key, ws, i, AcquireSlot(c, w, pool, env).worker, env);
  }

  lemma ReleaseSlotLegal(c: Cell, w: Worker, i: nat, ws: seq<Worker>, pool: Pool, env: Env)
    requires Around(c, w, i, ws, pool, env) && w.pc.DropSlot?
    ensures Legal(c, w, i, ws, pool, env, ReleaseSlot(c, w, pool))
  {
    hide Counting, Shaped, LastError, OnlyLastMaySucceed;
    ShapeSurvives(c, w.key, ws, i, ReleaseSlot(c, w, pool).worker, env);
  }

  lemma RunnerReturnsLegal(c: Cell, w: Worker, i: nat, ws: seq<Worker>, pool: Pool, env: Env, result: Result)
    requires Around(c, w, i, ws, pool, env) && w.pc.InRunner?
    ensures Legal(c, w, i, ws, pool, env, RunnerReturns(c, w, pool, result))
  {
    hide Counting, Shaped, LastError;
    ShapeSurvives(c, w.key, ws, i, RunnerReturns(c, w, pool, result).worker, env);
  }

  lemma FinishProcessLegal(c: Cell, w: Worker, i: nat, ws: seq<Worker>, pool: Pool, env: Env)
    requires Around(c, w, i, ws, pool, env) && w.pc.Finish?
    ensures Legal(c, w, i, ws, pool, env, FinishProcess(c, w, pool))
  {
    hide Counting, Shaped, LastError, OnlyLastMaySucceed;
    ShapeSurvives(c, w.key, ws, i, FinishProcess(c, w, pool).worker, env);
  }

  lemma CheckContextLegal(c: Cell, w: Worker, i: nat, ws: seq<Worker>, pool: Pool, env: Env)
    requires Around(c, w, i, ws, pool, env) && w.pc.Returned? && !(w.kind == Queue && w.pc.result.success)
    ensures Legal(c, w, i, ws, pool, env, CheckContext(c, w, pool, env))
  {
    hide Counting, Shaped, LastError, OnlyLastMaySucceed;
    ShapeSurvives(c, w.key, ws, i, CheckContext(c, w, pool, env).worker, env);
  }

  // A queue goroutine that does not get the target: it waits, or its run is no longer current.
  lemma RefusedClaimLegal(c: Cell, w: Worker, i: nat, ws: seq<Worker>, pool: Pool, env: Env)
    requires Around(c, w, i, ws, pool, env) && w.kind == Queue && w.pc.Claim?
    requires !QueueCurrent(c.job, w) || c.arbiter.owner != Nobody
    ensures Legal(c, w, i, ws, pool, env, ClaimQueue(c, w, i, pool))
  {
    hide Counting, Shaped, LastError, OnlyLastMaySucceed;
    ShapeSurvives(c, w.key, ws, i, ClaimQueue(c, w, i, pool).worker, env);
  }

  lemma ClaimQueueLegal(c: Cell, w: Worker, i: nat, ws: seq<Worker>, pool: Pool, env: Env)
    requires Around(c, w, i, ws, pool, env) && w.kind == Queue && w.pc.Claim?
    ensures Legal(c, w, i, ws, pool, env, ClaimQueue(c, w, i, pool))
  {
    hide Counting, LastError, OnlyLastMaySucceed;
    if !QueueCurrent(c.job, w) || c.arbiter.owner != Nobody { RefusedClaimLegal(c, w, i, ws, pool, env); hide Legal; }
  }

  // A goroutine that may not begin goes on to hand its slot back.
  lemma StaleBeginLegal(c: Cell, w: Worker, i: nat, ws: seq<Worker>, pool: Pool, env: Env)
    requires Around(c, w, i, ws, pool, env) && w.pc.Begin?
    requires w.kind == Queue ==> !QueueCurrent(c.job, w)
    requires w.kind == Keepalive ==> !KeepaliveCurrent(c.keepalive, w)
    requires w.kind != Adhoc
    ensures Legal(c, w, i, ws, pool, env, Quiet(c, w, DropSlot, pool))
  {
    hide Counting, Shaped, LastError, OnlyLastMaySucceed;
    ShapeSurvives(c, w.key, ws, i, w.(pc := DropSlot), env);
  }

  lemma BeginAttemptLegal(c: Cell, w: Worker, i: nat, ws: seq<Worker>, pool: Pool, env: Env)
    requires Around(c, w, i, ws, pool, env) && w.kind == Queue && w.pc.Begin?
    ensures Legal(c, w, i, ws, pool, env, BeginAttempt(c, w, pool, env))
  {
    if !QueueCurrent(c.job, w) { StaleBeginLegal(c, w, i, ws, pool, env); hide Legal; }
  }

  lemma AbandonTargetLegal(c: Cell, w: Worker, i: nat, ws: seq<Worker>, pool: Pool, env: Env)
    requires Around(c, w, i, ws, pool, env) && w.pc.DropTarget?
    ensures Legal(c, w, i, ws, pool, env, AbandonTarget(c, w, pool))
  {
    hide Counting, LastError, OnlyLastMaySucceed;
  }

  lemma MarkSuccessLegal(c: Cell, w: Worker, i: nat, ws: seq<Worker>, pool: Pool, env: Env)
    requires Around(c, w, i, ws, pool, env) && w.kind == Queue && w.pc.Returned? && w.pc.result.success
    ensures Legal(c, w, i, ws, pool, env, MarkSuccess(c, w, pool, env))
  {
    hide Counting, LastError, OnlyLastMaySucceed;
    if !QueueCurrent(c.job, w) { LeaveLegal(c, w, i, ws, pool, env); return; }
  }

  lemma MarkFailureLegal(c: Cell, w: Worker, i: nat, ws: seq<Worker>, pool: Pool, env: Env)
    requires Around(c, w, i, ws, pool, env) && w.kind == Queue && w.pc.Mark?
    ensures Legal(c, w, i, ws, pool, env, MarkFailure(c, w, pool))
  {
    hide Counting;
    if !QueueCurrent(c.job, w) { LeaveLegal(c, w, i, ws, pool, env); return; }
  }

  lemma MarkQueueCancelledLegal(c: Cell, w: Worker, i: nat, ws: seq<Worker>, pool: Pool, env: Env)
    requires Around(c, w, i, ws, pool, env) && w.kind == Queue && w.pc.Cancel?
    ensures Legal(c, w, i, ws, pool, env, MarkQueueCancelled(c, w, pool, env))
  {
    hide Counting, LastError, OnlyLastMaySucceed;
    if !QueueCurrent(c.job, w) { LeaveLegal(c, w, i, ws, pool, env); return; }
  }

  // A keepalive that is no longer current goes on to say so.
  lemma StaleClaimLegal(c: Cell, w: Worker, i: nat, ws: seq<Worker>, pool: Pool, env: Env)
    requires Around(c, w, i, ws, pool, env) && w.kind == Keepalive && w.pc.Claim? && !KeepaliveCurrent(c.keepalive, w)
    ensures Legal(c, w, i, ws, pool, env, Quiet(c, w, Cancel, pool))
  {
    hide Counting, Shaped, LastError, OnlyLastMaySucceed;
    ShapeSurvives(c, w.key, ws, i, w.(pc := Cancel), env);
  }

  // One that is current and has to wait.
  lemma BlockedClaimLegal(c: Cell, w: Worker, i: nat, ws: seq<Worker>, pool: Pool, env: Env)
    requires Around(c, w, i, ws, pool, env) && w.kind == Keepalive && w.pc.Claim?
    requires KeepaliveCurrent(c.keepalive, w) && KeepaliveBlocked(c)
    ensures Legal(c, w, i, ws, pool, env, ClaimKeepalive(c, w, pool))
  {
    hide Counting, LastError, OnlyLastMaySucceed;
  }

  lemma ClaimKeepaliveLegal(c: Cell, w: Worker, i: nat, ws: seq<Worker>, pool: Pool, env: Env)
    requires Around(c, w, i, ws, pool, env) && w.kind == Keepalive && w.pc.Claim?
    ensures Legal(c, w, i, ws, pool, env, ClaimKeepalive(c, w, pool))
  {
    hide Counting, LastError, OnlyLastMaySucceed;
    if !KeepaliveCurrent(c.keepalive, w) { StaleClaimLegal(c, w, i, ws, pool, env); hide Legal; }
    else if KeepaliveBlocked(c) { BlockedClaimLegal(c, w, i, ws, pool, env); hide Legal; }
  }

  lemma BeginKeepaliveLegal(c: Cell, w: Worker, i: nat, ws: seq<Worker>, pool: Pool, env: Env)
    requires Around(c, w, i, ws, pool, env) && w.kind == Keepalive && w.pc.Begin?
    ensures Legal(c, w, i, ws, pool, env, BeginKeepalive(c, w, i, pool, env))
  {
    if !KeepaliveCurrent(c.keepalive, w) { StaleBeginLegal(c, w, i, ws, pool, env); hide Legal; }
  }

  lemma FinishKeepaliveLegal(c: Cell, w: Worker, i: nat, ws: seq<Worker>, pool: Pool, env: Env, delay: int)
    requires Around(c, w, i, ws, pool, env) && w.kind == Keepalive && w.pc.Mark?
    requires IsSample(delay, env.keepaliveMin, env.keepaliveMax)
    ensures Legal(c, w, i, ws, pool, env, FinishKeepalive(c, w, pool, env, delay))
  {
    hide Counting;
    if !KeepaliveCurrent(c.keepalive, w) { LeaveLegal(c, w, i, ws, pool, env); return; }
  }

  lemma MarkKeepaliveCancelledLegal(c: Cell, w: Worker, i: nat, ws: seq<Worker>, pool: Pool, env: Env)
    requires Around(c, w, i, ws, pool, env) && w.kind == Keepalive && w.pc.Cancel?
    ensures Legal(c, w, i, ws, pool, env, MarkKeepaliveCancelled(c, w, pool, env))
  {
    hide Counting, LastError, OnlyLastMaySucceed;
    if !KeepaliveCurrent(c.keepalive, w) { LeaveLegal(c, w, i, ws, pool, env); return; }
  }

  lemma LookAtScheduleLegal(c: Cell, w: Worker, i: nat, ws: seq<Worker>, pool: Pool, env: Env)
    requires Around(c, w, i, ws, pool, env) && w.kind == Keepalive && w.pc.Sleep?
    ensures Legal(c, w, i, ws, pool, env, LookAtSchedule(c, w, pool, env))
  {
    hide Counting, Shaped, LastError, OnlyLastMaySucceed;
    ShapeSurvives(c, w.key, ws, i, LookAtSchedule(c, w, pool, env).worker, env);
  }

  lemma BeginAdhocLegal(c: Cell, w: Worker, i: nat, ws: seq<Worker>, pool: Pool, env: Env, saw: bool)
    requires Around(c, w, i, ws, pool, env) && w.kind == Adhoc && w.pc.Begin?
    ensures Legal(c, w, i, ws, pool, env, BeginAdhoc(c, w, pool, saw))
  {
    hide Counting, Shaped, LastError, OnlyLastMaySucceed;
    ShapeSurvives(c, w.key, ws, i, BeginAdhoc(c, w, pool, saw).worker, env);
  }

  lemma FinishAdhocLegal(c: Cell, w: Worker, i: nat, ws: seq<Worker>, pool: Pool, env: Env)
    requires Around(c, w, i, ws, pool, env) && w.kind == Adhoc && w.pc.Exit?
    ensures Legal(c, w, i, ws, pool, env, FinishAdhoc(c, w, pool))
  {
    hide Counting, LastError, OnlyLastMaySucceed;
  }

  lemma FinishQueueWorkerLegal(c: Cell, w: Worker, i: nat, ws: seq<Worker>, pool: Pool, env: Env)
    requires Around(c, w, i, ws, pool, env) && w.kind == Queue && w.pc.Exit?
    ensures Legal(c, w, i, ws, pool, env, FinishQueueWorker(c, w, pool))
  {
    hide Counting, LastError, OnlyLastMaySucceed;
  }

  lemma FinishKeepaliveWorkerLegal(c: Cell, w: Worker, i: nat, ws: seq<Worker>, pool: Pool, env: Env)
    requires Around(c, w, i, ws, pool, env) && w.kind == Keepalive && w.pc.Exit?
    ensures Legal(c, w, i, ws, pool, env, FinishKeepaliveWorker(c, w, pool))
  {
    hide Counting, LastError, OnlyLastMaySucceed;
  }

  // ---------------------------------------------------------------- the step as a whole

  // Waking up, giving up and the alarm change nothing but the program counter.
  lemma ClaimWaitLegal(c: Cell, w: Worker, i: nat, ws: seq<Worker>, pool: Pool, env: Env, choice: Choice)
    requires Around(c, w, i, ws, pool, env) && w.pc.ClaimWait? && Enabled(c, w, pool, env, choice)
    ensures Legal(c, w, i, ws, pool, env, Work(c, w, i, pool, env, choice))
  {
    hide Counting, Shaped, LastError, OnlyLastMaySucceed;
    ShapeSurvives(c, w.key, ws, i, Work(c, w, i, pool, env, choice).worker, env);
  }

  lemma SlotWaitLegal(c: Cell, w: Worker, i: nat, ws: seq<Worker>, pool: Pool, env: Env, choice: Choice)
    requires Around(c, w, i, ws, pool, env) && w.pc.SlotWait? && Enabled(c, w, pool, env, choice)
    ensures Legal(c, w, i, ws, pool, env, Work(c, w, i, pool, env, choice))
  {
    hide Counting, Shaped, LastError, OnlyLastMaySucceed;
    ShapeSurvives(c, w.key, ws, i, Work(c, w, i, pool, env, choice).worker, env);
  }

  lemma SleepWaitLegal(c: Cell, w: Worker, i: nat, ws: seq<Worker>, pool: Pool, env: Env, choice: Choice)
    requires Around(c, w, i, ws, pool, env) && w.pc.SleepWait? && Enabled(c, w, pool, env, choice)
    ensures Legal(c, w, i, ws, pool, env, Work(c, w, i, pool, env, choice))
  {
    hide Counting, Shaped, LastError, OnlyLastMaySucceed;
    ShapeSurvives(c, w.key, ws, i, Work(c, w, i, pool, env, choice).worker, env);
  }

  // Which kinds of goroutine reach which sections.
  lemma PossiblePC(c: Cell, w: Worker, i: nat, ws: seq<Worker>, pool: Pool, env: Env)
    requires Around(c, w, i, ws, pool, env)
    ensures w.kind == Queue || w.kind == Keepalive || w.kind == Adhoc
    ensures !w.pc.DropSlotWait? && !w.pc.Done?
    ensures w.kind == Adhoc ==> w.pc.Slot? || w.pc.SlotWait? || w.pc.Begin? || w.pc.InRunner? || w.pc.Exit?
    ensures w.pc.DropTarget? ==> w.kind == Queue
    ensures w.pc.Sleep? || w.pc.SleepWait? ==> w.kind == Keepalive
  {
  }

  lemma WorkLegal(c: Cell, w: Worker, i: nat, ws: seq<Worker>, pool: Pool, env: Env, choice: Choice)
    requires Around(c, w, i, ws, pool, env) && Enabled(c, w, pool, env, choice)
    ensures Legal(c, w, i, ws, pool, env, Work(c, w, i, pool, env, choice))
  {
    PossiblePC(c, w, i, ws, pool, env);
    hide Legal, Around;
    match w.pc
    case Claim =>
      if w.kind == Queue { ClaimQueueLegal(c, w, i, ws, pool, env); }
      else { ClaimKeepaliveLegal(c, w, i, ws, pool, env); }
    case Slot => AcquireSlotLegal(c, w, i, ws, pool, env);
    case Begin =>
      if w.kind == Queue { BeginAttemptLegal(c, w, i, ws, pool, env); }
      else if w.kind == Keepalive { BeginKeepaliveLegal(c, w, i, ws, pool, env); }
      else { BeginAdhocLegal(c, w, i, ws, pool, env, choice == SawCancelled); }
    case DropSlot => ReleaseSlotLegal(c, w, i, ws, pool, env);
    case DropTarget => AbandonTargetLegal(c, w, i, ws, pool, env);
    case InRunner => RunnerReturnsLegal(c, w, i, ws, pool, env, choice.result);
    case Finish(_) => FinishProcessLegal(c, w, i, ws, pool, env);
    case Returned(result) =>
      if w.kind == Queue && result.success { MarkSuccessLegal(c, w, i, ws, pool, env); }
      else { CheckContextLegal(c, w, i, ws, pool, env); }
    case Mark(_) =>
      if w.kind == Keepalive { FinishKeepaliveLegal(c, w, i, ws, pool, env, choice.delay); }
      else { MarkFailureLegal(c, w, i, ws, pool, env); }
    case Cancel =>
      if w.kind == Queue { MarkQueueCancelledLegal(c, w, i, ws, pool, env); }
      else { MarkKeepaliveCancelledLegal(c, w, i, ws, pool, env); }
    case Sleep => LookAtScheduleLegal(c, w, i, ws, pool, env);
    case Exit(_, _) =>
      if w.kind == Queue { FinishQueueWorkerLegal(c, w, i, ws, pool, env); }
      else if w.kind == Keepalive { FinishKeepaliveWorkerLegal(c, w, i, ws, pool, env); }
      else { FinishAdhocLegal(c, w, i, ws, pool, env); }
    case ClaimWait(_) => ClaimWaitLegal(c, w, i, ws, pool, env, choice);
    case SlotWait(_) => SlotWaitLegal(c, w, i, ws, pool, env, choice);
    case SleepWait(_, _) => SleepWaitLegal(c, w, i, ws, pool, env, choice);
    case _ => assert false;
  }
}
