/** What the manager answers its callers, when, and what it has done and left alone when it answers. */
module JobAnswers {
  import opened Text
  import opened Targets
  import opened Streams
  import opened JobState
  import opened JobSteps
  import opened JobRegistry
  import opened JobApi
  import opened JobInvariant
  import opened JobApiKeeps
  import opened JobRegistryKeeps
  import opened JobRuns
  import opened JobSafety
  import opened JobHistory
  import opened JobStarts
  import opened JobOutcomes
  import opened JobEndings

  // Nobody works on k in this mode.
  ghost predicate NobodyOf(ws: seq<Worker>, k: Key, mode: Owner) {
    forall i :: 0 <= i < |ws| && !ws[i].pc.Done? && ws[i].key == k ==> ws[i].kind != mode
  }

  // ---------------------------------------------------------------- starting

  function StartAnswer(s: State, k: Key, mode: Owner): StartOutcome {
    if mode == Queue then StartQueueOutcome(s, k) else StartKeepaliveOutcome(s, k)
  }

  // The section that starts a run answers that the mode is on already, starts it, or has to prepare again because the
  // other mode has come in between; it starts nothing during shutdown.
  lemma StartAnswers(s: Sound, k: Key, mode: Owner)
    requires IsMode(mode)
    ensures StartAnswer(s, k, mode) == Missing <==> k !in s.cells
    ensures StartAnswer(s, k, mode) == Already <==> k in s.cells && (s.env.shuttingDown || Active(s.cells[k], mode))
    ensures StartAnswer(s, k, mode) == Retry <==>
      && k in s.cells && !s.env.shuttingDown && !Active(s.cells[k], mode)
      && (Active(s.cells[k], OtherMode(mode)) || !NobodyOf(s.workers, k, OtherMode(mode)))
  {
    hide Core, Observed;
    if k in s.cells { NobodyIsCounted(s, k, OtherMode(mode)); }
  }

  // Only a start that starts something, or a queue start that joins a run, has an effect.
  lemma StartElseNothing(s: Sound, k: Key, mode: Owner, sub: Subscriber)
    requires IsMode(mode) && StartAnswer(s, k, mode) != Started
    requires mode == Queue && k in s.cells && s.cells[k].job.state == Running ==> s.env.shuttingDown
    ensures Apply(s, StartStep(k, mode, sub)) == s
  {
    hide Core, Observed, NoRepeats, Formed;
    CoreListing(s);
  }

  // The subscribers with this one among them, under the key it names or else its recipient.
  function Subscribed(subs: Subscribers, sub: Subscriber): Subscribers {
    if sub.recipient == "" then subs
    else if TrimSpace(sub.key) != "" then subs[TrimSpace(sub.key) := sub]
    else subs[sub.recipient := sub]
  }

  lemma AddIsExact(s: State, k: Key, sub: Subscriber)
    requires Formed(s) && k in s.cells && s.cells[k].job.cancel.Some? && s.cells[k].job.cancel.value < |s.workers|
    requires s.workers[s.cells[k].job.cancel.value].registered == s.cells[k].job.subscribers
    ensures var c, n := s.cells[k], s.cells[k].job.cancel.value;
      var subs := Subscribed(c.job.subscribers, sub);
      AddSubscriber(s, k, sub) == s.(
        cells := s.cells[k := c.(job := c.job.(subscribers := subs))],
        workers := s.workers[n := s.workers[n].(registered := subs)])
  {
    hide TrimSpace, Formed;
  }

  lemma RunHasItsWorker(s: Sound, k: Key)
    requires k in s.cells && s.cells[k].job.state == Running
    ensures var n := s.cells[k].job.cancel;
      n.Some? && OnRun(s, n.value, k, Queue) && s.workers[n.value].registered == s.cells[k].job.subscribers
  {
    TargetFacts(s, k);
    var n := s.cells[k].job.cancel;
    assert FitsIn(s, n.value);
    hide Core, Observed;
  }

  // Who joins a running queue run is added to its subscribers, in place of an earlier one under that key. Nothing else
  // happens.
  lemma JoinAddsSubscriber(s: Sound, k: Key, sub: Subscriber, step: Step)
    requires k in s.cells && s.cells[k].job.state == Running
    requires step == Join(k, sub) || (step == StartQueueRun(k, sub) && !s.env.shuttingDown)
    ensures var c := s.cells[k];
      && c.job.cancel.Some? && c.job.cancel.value < |s.workers|
      && var n, subs := c.job.cancel.value, Subscribed(c.job.subscribers, sub);
      && OnRun(s, n, k, Queue)
      && Apply(s, step) == s.(
           cells := s.cells[k := c.(job := c.job.(subscribers := subs))],
           workers := s.workers[n := s.workers[n].(registered := subs)])
  {
    hide IsSound, AddSubscriber, Apply, Formed, Broadcast;
    RunHasItsWorker(s, k);
    if step.Join? { JoinIsApplied(s, k, sub); } else { StartIsApplied(s, k, sub); }
    AddIsExact(s, k, sub);
  }

  // ---------------------------------------------------------------- switching modes

  lemma RunsAreCounted(s: Sound, k: Key)
    requires k in s.cells
    ensures s.cells[k].job.state == Running ==> s.cells[k].job.workers > 0
    ensures s.cells[k].keepalive.state != Off ==> s.cells[k].keepalive.workers > 0
  {
    hide Core, Observed;
    NobodyIsCounted(s, k, Queue);
    NobodyIsCounted(s, k, Keepalive);
    TargetFacts(s, k);
  }

  // Whoever works on the target still does right after prepareMode has told him to end.
  lemma PrepareIsBusy(s: Sound, k: Key, mode: Owner)
    requires IsMode(mode) && !PrepareRefused(s, k, mode)
    ensures Formed(s) && k in s.cells
    ensures PrepareMode(s, k, mode).1 == Ready <==> !Busy(s.cells[k])
  {
    hide Core, Observed, NoRepeats, Formed, Snapshot, Publish;
    CoreListing(s);
    IdleIsEmpty(s, k);
    NobodyIsCounted(s, k, Queue);
    NobodyIsCounted(s, k, Keepalive);
    RunsAreCounted(s, k);
  }

  // prepareMode refuses where there is nothing to prepare: the target is gone, the manager shuts down, or the mode is
  // on already. Otherwise it tells everybody on the target to end and lets its caller through once nobody is left.
  lemma PrepareAnswers(s: Sound, k: Key, mode: Owner)
    requires IsMode(mode)
    ensures Formed(s)
    ensures PrepareMode(s, k, mode).1 == Refused <==> k !in s.cells || s.env.shuttingDown || Active(s.cells[k], mode)
    ensures PrepareMode(s, k, mode).1 == Refused ==> Apply(s, Prepare(k, mode)) == s
    ensures PrepareMode(s, k, mode).1 == Ready <==>
      && k in s.cells && !s.env.shuttingDown && !Active(s.cells[k], mode) && NoneWorksOn(s.workers, k)
  {
    hide Core, Observed, NoRepeats, Formed, Busy, StopAdhoc, StopQueue, StopKeepalive, Snapshot, Publish, NoneWorksOn;
    CoreListing(s);
    if k in s.cells && !PrepareRefused(s, k, mode) {
      IdleIsEmpty(s, k);
      PrepareIsBusy(s, k, mode);
    }
  }

  lemma PrepareHalts(s: State, k: Key, mode: Owner)
    requires Formed(s) && IsMode(mode) && !PrepareRefused(s, k, mode) && Shaped(s.cells[k], k, s.workers, s.env)
    ensures var t := PrepareMode(s, k, mode).0;
      && t.cells.Keys == s.cells.Keys && t.env == s.env && t.pool == s.pool
      && Halted(s.cells[k], t.cells[k], s.env.now)
      && (mode == Queue ==> t.cells[k].job == s.cells[k].job)
      && (mode == Keepalive ==> t.cells[k].keepalive == s.cells[k].keepalive)
      && (forall l <- s.cells :: l != k ==> t.cells[l] == s.cells[l])
  {
    hide Snapshot, Publish, Busy, IsRun, InWindow;
  }

  lemma SameWorkersTold(s: State, t: State, u: State, k: Key)
    requires OnlyTold(s, t, k) && u.workers == t.workers
    ensures OnlyTold(s, u, k)
  {
  }

  lemma PrepareTellsOwn(s: State, k: Key, mode: Owner)
    requires Formed(s) && IsMode(mode) && !PrepareRefused(s, k, mode) && Shaped(s.cells[k], k, s.workers, s.env)
    ensures OnlyTold(s, PrepareMode(s, k, mode).0, k)
  {
    hide Snapshot, Publish, Busy, StopQueue, StopKeepalive, StopAdhoc, Formed, NamesOwn, OnlyTold, Shaped;
    ShapedNamesOwn(s, k);
    var s1 := StopAdhoc(s, k);
    StopAdhocTells(s, k);
    StopQueueTells(s1, k);
    StopKeepaliveTells(s1, k);
    OnlyToldOn(s, s1, StopQueue(s1, k), k);
    OnlyToldOn(s, s1, StopKeepalive(s1, k), k);
    var stopped := if mode == Queue then StopKeepalive(s1, k) else StopQueue(s1, k);
    SameWorkersTold(s, stopped, PrepareMode(s, k, mode).0, k);
  }

  // What it does to the target, and that it does nothing to any other: the mode that is asked for is left as it is, the
  // other one is off.
  lemma PrepareIsExact(s: Sound, k: Key, mode: Owner)
    requires IsMode(mode) && !PrepareRefused(s, k, mode)
    ensures var t := Apply(s, Prepare(k, mode));
      && k in s.cells && t.cells.Keys == s.cells.Keys && t.env == s.env && t.pool == s.pool
      && Halted(s.cells[k], t.cells[k], s.env.now)
      && (mode == Queue ==> t.cells[k].job == s.cells[k].job)
      && (mode == Keepalive ==> t.cells[k].keepalive == s.cells[k].keepalive)
      && (forall l <- s.cells :: l != k ==> t.cells[l] == s.cells[l])
      && OnlyTold(s, t, k)
  {
    hide Core, Observed, NoRepeats, Formed, Snapshot, Publish, Busy, Halted, OnlyTold;
    CoreListing(s);
    CellFacts(s, k);
    PrepareHalts(s, k, mode);
    PrepareTellsOwn(s, k, mode);
  }

  // ---------------------------------------------------------------- ad-hoc requests

  // A request that is not let in is told why, the first reason first, and leaves no trace.
  lemma ReserveAnswers(s: Sound, id: int)
    ensures Formed(s)
    ensures ReserveOutcome(s, id) == NotFound <==> forall k <- s.cells :: s.cells[k].target.id != id
    ensures ReserveOutcome(s, id) == ShuttingDown <==>
      (s.env.shuttingDown || s.env.rootDone) && exists k <- s.cells :: s.cells[k].target.id == id
    ensures ReserveOutcome(s, id) == TargetBusy <==>
      && !s.env.shuttingDown && !s.env.rootDone
      && exists k <- s.cells :: s.cells[k].target.id == id && !NoneWorksOn(s.workers, k)
    ensures ReserveOutcome(s, id) != Reserved ==> Apply(s, Reserve(id)) == s
  {
    hide Core, Observed, Normalize, InOrder, NoRepeats, Busy, NoneWorksOn;
    CoreListing(s);
    CoreIsRegistered(s);
    forall k <- s.cells ensures Busy(s.cells[k]) <==> !NoneWorksOn(s.workers, k) { IdleIsEmpty(s, k); }
  }

  // ---------------------------------------------------------------- the registry

  // What k's entry is when its target has just been created.
  predicate IsNew(c: Cell, target: Target) {
    && c.target == target
    && c.job == Job(Idle, 0, None, None, None, None, "", 0, None, map[], 0)
    && c.keepalive == KeepaliveJob(Off, 0, None, None, None, None, None, None, "", 0, None, 0, 0)
    && c.arbiter == Arbiter(Nobody, 0, None, 0)
  }

  // Another target is filed under this name already.
  ghost predicate NameIsTaken(cells: map<Key, Cell>, name: string, id: int) {
    exists k <- cells :: cells[k].target.id != id && Normalize(cells[k].target.name) == Normalize(name)
  }

  // Nobody else is concerned by a change of the registry.
  predicate OnlyRegistry(s: State, t: State) {
    t.workers == s.workers && t.pool == s.pool && t.env == s.env
  }

  lemma SortedLength(s: State, target: Target)
    requires Listed(s.cells, s.order)
    ensures var cells := s.cells[Normalize(target.name) := NewCell(target)];
      Listed(cells, s.order + [Normalize(target.name)])
      && |SortTargets(s.order + [Normalize(target.name)], cells)| == |s.order| + 1
  {
    hide Normalize;
    var cells, order := s.cells[Normalize(target.name) := NewCell(target)], s.order + [Normalize(target.name)];
    assert |multiset(SortTargets(order, cells))| == |multiset(order)|;
  }

  // A target is created exactly if no other has its name; it is idle, and nothing is known of it.
  lemma CreateIsExact(s: Sound, target: Target)
    requires FreshID(s, target)
    ensures CreateOutcome(s, target.name) == Committed <==> !NameIsTaken(s.cells, target.name, target.id)
    ensures CreateOutcome(s, target.name) == NameTaken || CreateOutcome(s, target.name) == Committed
    ensures CreateOutcome(s, target.name) != Committed ==> Apply(s, Create(target)) == s
    ensures CreateOutcome(s, target.name) == Committed ==>
      var t, k := Apply(s, Create(target)), Normalize(target.name);
      && OnlyRegistry(s, t) && k !in s.cells && k in t.cells && IsNew(t.cells[k], target)
      && t.cells == s.cells[k := t.cells[k]] && |t.order| == |s.order| + 1
  {
    hide Core, Observed, NoRepeats, Normalize, SortTargets, Snapshot, Publish, InOrder;
    CoreListing(s);
    CoreIsRegistered(s);
    SortedLength(s, target);
  }

  // Where the registry files the target with this id.
  lemma FiledUnder(s: Sound, id: int, k: Key)
    requires k in s.cells && s.cells[k].target.id == id
    ensures Formed(s) && KeyOf(s.cells, s.order, id) == Some(k) && k == Normalize(s.cells[k].target.name)
  {
    hide Core, Observed, NoRepeats, Normalize, InOrder;
    CoreListing(s);
    CoreIsRegistered(s);
  }

  // A target is updated exactly if it is there, nobody works on it, and no other has its new name.
  lemma UpdateAnswers(s: Sound, id: int, name: string)
    ensures Formed(s)
    ensures UpdateOutcome(s, id, name) == NoSuchTarget <==> forall k <- s.cells :: s.cells[k].target.id != id
    ensures UpdateOutcome(s, id, name) == StillBusy <==>
      exists k <- s.cells :: s.cells[k].target.id == id && !NoneWorksOn(s.workers, k)
    ensures UpdateOutcome(s, id, name) == Committed <==>
      && (exists k <- s.cells :: s.cells[k].target.id == id && NoneWorksOn(s.workers, k))
      && !NameIsTaken(s.cells, name, id)
  {
    hide Core, Observed, NoRepeats, Normalize, InOrder, Busy, NoneWorksOn;
    CoreListing(s);
    CoreIsRegistered(s);
    forall k <- s.cells ensures Busy(s.cells[k]) <==> !NoneWorksOn(s.workers, k) { IdleIsEmpty(s, k); }
  }

  lemma RenamedLength(s: Sound, k: Key, newKey: Key, target: Target)
    requires k in s.cells
    ensures var cells, order := CellsRenamed(s.cells, k, newKey, target), OrderRenamed(s.order, k, newKey);
      Listed(cells, order) && |SortTargets(order, cells)| == |s.order|
  {
    hide Core, Observed, NoRepeats, Normalize, CellsRenamed;
    CoreListing(s);
    CoreIsRegistered(s);
    RenamedIsListed(s.cells, s.order, k, newKey, target);
    var cells, order := CellsRenamed(s.cells, k, newKey, target), OrderRenamed(s.order, k, newKey);
    assert |multiset(SortTargets(order, cells))| == |multiset(order)|;
  }

  // Then its entry moves to the new name with everything on record, and no other entry is touched.
  lemma UpdateKeepsRecords(s: Sound, k: Key, target: Target)
    requires Formed(s) && k in s.cells && s.cells[k].target.id == target.id
    requires UpdateOutcome(s, target.id, target.name) == Committed
    ensures var t, newKey := Apply(s, Update(target.id, target)), Normalize(target.name);
      && OnlyRegistry(s, t) && |t.order| == |s.order|
      && newKey in t.cells && t.cells[newKey] == s.cells[k].(target := target)
      && (forall l <- s.cells :: l != k ==> l in t.cells && t.cells[l] == s.cells[l])
      && (forall l <- t.cells :: l == newKey || (l in s.cells && l != k))
  {
    hide Core, Observed, NoRepeats, Normalize, SortTargets, Snapshot, Publish, InOrder, Busy, OrderRenamed;
    CoreListing(s);
    CoreIsRegistered(s);
    FiledUnder(s, target.id, k);
    RenamedLength(s, k, Normalize(target.name), target);
  }

  // A target is deleted exactly if it is there and nobody works on it; the others stay as and where they are.
  lemma DeleteIsExact(s: Sound, id: int)
    ensures Formed(s)
    ensures DeleteOutcome(s, id) == NoSuchTarget <==> forall k <- s.cells :: s.cells[k].target.id != id
    ensures DeleteOutcome(s, id) == Committed <==>
      exists k <- s.cells :: s.cells[k].target.id == id && NoneWorksOn(s.workers, k)
    ensures DeleteOutcome(s, id) != NameTaken
    ensures DeleteOutcome(s, id) != Committed ==> Apply(s, Delete(id)) == s
    ensures DeleteOutcome(s, id) == Committed ==>
      var t := Apply(s, Delete(id));
      && OnlyRegistry(s, t)
      && (forall k <- s.cells :: s.cells[k].target.id != id ==> k in t.cells && t.cells[k] == s.cells[k])
      && (forall k <- t.cells :: k in s.cells && s.cells[k].target.id != id)
  {
    hide Core, Observed, NoRepeats, Normalize, Snapshot, Publish, InOrder, Busy, NoneWorksOn, Without;
    CoreListing(s);
    CoreIsRegistered(s);
    forall k <- s.cells ensures Busy(s.cells[k]) <==> !NoneWorksOn(s.workers, k) { IdleIsEmpty(s, k); }
  }

  // ---------------------------------------------------------------- settings and shutdown

  // New settings are in force at once, but for a limit that is not positive. A new limit wakes whoever waits for a
  // slot.
  lemma SettingsAreTaken(s: Sound, step: Step)
    requires step.Settings? && Possible(s, step)
    ensures var t := Apply(s, step);
      && t.env.keepaliveMin == step.minimum && t.env.keepaliveMax == step.maximum
      && t.env.successMessage == step.message
      && t.env.maxParallel == (if step.parallel > 0 then step.parallel else s.env.maxParallel)
      && t.env == s.env.(keepaliveMin := step.minimum, keepaliveMax := step.maximum, successMessage := step.message,
                         maxParallel := t.env.maxParallel)
      && t.pool == s.pool.(
           changed := s.pool.changed + if t.env.maxParallel != s.env.maxParallel then 1 else 0)
  {
    hide Core, Observed, NoRepeats, Snapshot, Publish, AreSamples, CellsAfter;
    CoreListing(s);
  }

  // Shutdown tells everybody who is not on the way out already to end. It happens once, and changes nothing else.
  lemma ShutdownIsExact(s: Sound)
    ensures var t := Apply(s, Shutdown);
      && t == s.(env := s.env.(shuttingDown := true), workers := t.workers) && |t.workers| == |s.workers|
      && (s.env.shuttingDown ==> t == s)
      && forall i :: 0 <= i < |s.workers| ==>
           && t.workers[i] == s.workers[i].(cancelled := t.workers[i].cancelled)
           && (s.workers[i].cancelled ==> t.workers[i].cancelled)
           && (!t.workers[i].pc.Done? && !t.workers[i].pc.Exit? ==> t.workers[i].cancelled)
  {
    hide Core, Observed, NoRepeats, Formed, ToCancel;
    CoreListing(s);
    var t: Sound := Apply(s, Shutdown);
    forall i | 0 <= i < |t.workers| && !t.workers[i].pc.Done? && !t.workers[i].pc.Exit?
      ensures t.workers[i].cancelled
    {
      LiveFacts(t, i);
    }
  }

  // ---------------------------------------------------------------- observers

  // A new observer has room for as many events as it asked for, or 32, and holds the current state; it is told of what
  // comes after. The others do not notice.
  lemma SubscribeIsExact(s: Sound, buffer: int)
    ensures var t, o := Apply(s, Subscribe(buffer)), |s.feed.streams|;
      && t == s.(feed := s.feed.(streams := t.feed.streams)) && |t.feed.streams| == o + 1
      && t.feed.streams[..o] == s.feed.streams
      && var st := t.feed.streams[o];
      && st.open && st.sent == [] && st.received == 0 && st.since == |s.feed.log|
      && st.capacity == (if buffer > 0 then buffer else 32)
      && Listed(s.cells, s.order) && st.Latest().snapshot == Snapshot(s)
  {
    hide Core, Observed, NoRepeats;
    CoreListing(s);
  }

  // Closing and taking an event concern that observer alone, and nobody else's events.
  lemma ReadersAreAlone(s: Sound, step: Step)
    requires (step.Close? || step.Take?) && Possible(s, step)
    ensures var t, o := Apply(s, step), step.stream;
      && t == s.(feed := s.feed.(streams := s.feed.streams[o := t.feed.streams[o]]))
      && var st, after := s.feed.streams[o], t.feed.streams[o];
      && (step.Close? ==> after == st.(open := false))
      && (step.Take? ==> after == st.(received := st.received + 1))
  {
    hide Core, Observed, NoRepeats, Snapshot;
    CoreListing(s);
  }
}
