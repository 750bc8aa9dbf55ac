/**
 Runs of the job manager: any interleaving of its goroutines' sections, its API callers' sections and the outside
 world. `Sound` collects what holds in every state of every run.
 */
module JobRuns {
  import opened Text
  import opened Targets
  import opened Streams
  import opened JobState
  import opened JobSteps
  import opened JobRegistry
  import opened JobApi
  import opened JobInvariant
  import opened JobFrame
  import opened JobKeeps
  import opened JobApiKeeps
  import opened JobRegistryKeeps

  // ---------------------------------------------------------------- steps

  datatype Step =
    | Go(i: nat, choice: Choice)
    | Prepare(key: Key, desired: Owner)
    | Join(key: Key, subscriber: Subscriber)
    | StartQueueRun(key: Key, subscriber: Subscriber)
    | StartKeepaliveRun(key: Key)
    | StopKeys(keys: seq<Key>)
    | StopID(id: int)
    | Reserve(id: int)
    | HangUp(i: nat)
    | Settings(minimum: int, maximum: int, parallel: int, message: string, samples: map<Key, int>)
    | Shutdown
    | Create(target: Target)
    | Update(id: int, target: Target)
    | Delete(id: int)
    | Subscribe(buffer: int)
    | Close(stream: nat)
    | Take(stream: nat)
    | Tick(elapsed: nat)
    | CancelRoot

  // A step that cannot happen now: a goroutine that is blocked or gone, a sample out of range, an id already in use.
  ghost predicate Possible(s: State, step: Step) {
    match step
    case Go(i, choice) =>
      Live(s, i) && Enabled(s.cells[s.workers[i].key], s.workers[i], s.pool, s.env, choice)
    case HangUp(i) => i < |s.workers| && s.workers[i].kind == Adhoc
    case Settings(minimum, maximum, _, _, samples) => AreSamples(s.cells, samples, minimum, maximum)
    case Create(target) => FreshID(s, target)
    case Update(id, target) => target.id == id
    case Close(stream) => stream < |s.feed.streams|
    case Take(stream) =>
      stream < |s.feed.streams| && s.feed.streams[stream].received < |s.feed.streams[stream].sent|
    case _ => true
  }

  ghost function Next(s: State, step: Step): (r: State)
    requires Formed(s) && NoRepeats(s.order) && Possible(s, step)
  {
    match step
    case Go(i, choice) =>
      Commit(s, i, Work(s.cells[s.workers[i].key], s.workers[i], i, s.pool, s.env, choice))
    case Prepare(k, desired) => PrepareMode(s, k, desired).0
    case Join(k, sub) => JoinQueue(s, k, sub)
    case StartQueueRun(k, sub) => StartQueue(s, k, sub)
    case StartKeepaliveRun(k) => StartKeepalive(s, k)
    case StopKeys(keys) => Stop(s, keys)
    case StopID(id) => StopByID(s, id)
    case Reserve(id) => ReserveAdhoc(s, id)
    case HangUp(i) => DropRequest(s, i)
    case Settings(minimum, maximum, parallel, message, samples) =>
      UpdateSettings(s, minimum, maximum, parallel, message, samples)
    case Shutdown => BeginShutdown(s)
    case Create(target) => CreateTarget(s, target)
    case Update(id, target) => UpdateTarget(s, id, target)
    case Delete(id) => DeleteTarget(s, id)
    case Subscribe(buffer) => Observe(s, buffer)
    case Close(stream) => Unsubscribe(s, stream)
    case Take(stream) => Receive(s, stream)
    case Tick(elapsed) => s.(env := s.env.(now := s.env.now + elapsed))
    case CancelRoot => s.(env := s.env.(rootDone := true))
  }

  // ---------------------------------------------------------------- what observers hold

  // Every stream is gap-free, events are numbered 1, 2, 3, ..., and an open observer that has drained its channel
  // holds exactly what a direct read returns.
  ghost predicate Observed(s: State)
    requires Formed(s)
  {
    && AllGapFree(s.feed.streams, s.feed.log)
    && (forall n :: 0 <= n < |s.feed.log| ==> s.feed.log[n].id == n + 1)
    && (forall o :: 0 <= o < |s.feed.streams| && s.feed.streams[o].open ==>
      s.feed.streams[o].Latest().snapshot == Snapshot(s))
  }

  lemma BroadcastObserves(s: State, feed: Feed)
    requires Formed(s) && s.feed == feed && AllGapFree(feed.streams, feed.log)
    requires forall n :: 0 <= n < |feed.log| ==> feed.log[n].id == n + 1
    ensures Observed(Broadcast(s))
  {
    var event := Event(|feed.log| + 1, Snapshot(s));
    PublishIsGapFree(feed.streams, feed.log, event);
    assert Snapshot(Broadcast(s)) == Snapshot(s);
  }

  lemma SilentObserves(s: State, t: State)
    requires Formed(s) && Formed(t) && Observed(s) && t.feed == s.feed && Snapshot(t) == Snapshot(s)
    ensures Observed(t)
  {
  }

  // A section that does not broadcast changes nothing an observer could see.
  lemma QuietIsInvisible(c: Cell, w: Worker, i: nat, ws: seq<Worker>, pool: Pool, env: Env, choice: Choice)
    requires Around(c, w, i, ws, pool, env) && Enabled(c, w, pool, env, choice)
    requires !Work(c, w, i, pool, env, choice).loud
    ensures View(Work(c, w, i, pool, env, choice).cell) == View(c)
    ensures Work(c, w, i, pool, env, choice).pool.processes == pool.processes
  {
    hide Shaped, History, Ambient;
    PossiblePC(c, w, i, ws, pool, env);
  }

  lemma SameViewSameSnapshot(s: State, t: State, k: Key)
    requires Listed(s.cells, s.order) && Listed(t.cells, t.order) && t.order == s.order && k in s.cells && k in t.cells
    requires t.cells == s.cells[k := t.cells[k]] && View(t.cells[k]) == View(s.cells[k])
    requires t.pool.processes == s.pool.processes && t.env.maxParallel == s.env.maxParallel
    ensures Snapshot(t) == Snapshot(s)
  {
  }

  lemma WorkObserves(s: State, i: nat, choice: Choice)
    requires Core(s) && Observed(s) && Possible(s, Go(i, choice))
    ensures Formed(Next(s, Go(i, choice))) && Observed(Next(s, Go(i, choice)))
  {
    var w, k := s.workers[i], s.workers[i].key;
    CoreAround(s, i);
    var e := Work(s.cells[k], w, i, s.pool, s.env, choice);
    var t := s.(cells := s.cells[k := e.cell], workers := s.workers[i := e.worker], pool := e.pool);
    if e.loud {
      hide Registered, Distinct, AllFit, AllShaped, AllTallied, Work, Around, Snapshot;
      BroadcastObserves(t, s.feed);
    } else {
      QuietIsInvisible(s.cells[k], w, i, s.workers, s.pool, s.env, choice);
      hide Registered, Distinct, AllFit, AllShaped, AllTallied, Work, Around, View;
      SameViewSameSnapshot(s, t, k);
      SilentObserves(s, t);
    }
  }

  // ---------------------------------------------------------------- silent sections of API callers

  lemma {:induction false} NothingToStop(s: State, keys: seq<Key>)
    requires Formed(s) && !AnyStoppable(s, keys)
    ensures StopAll(s, keys) == s
  {
    if keys != [] {
      var front := keys[..|keys| - 1];
      assert forall k <- front :: k in keys;
      NothingToStop(s, front);
    }
  }

  lemma {:induction false} StopAllLeavesFeed(s: State, keys: seq<Key>)
    requires Formed(s)
    ensures StopAll(s, keys).feed == s.feed
  {
    if keys != [] { StopAllLeavesFeed(s, keys[..|keys| - 1]); }
  }

  lemma StopObserves(s: State, keys: seq<Key>)
    requires Formed(s) && Observed(s)
    ensures Observed(Stop(s, keys))
  {
    StopAllLeavesFeed(s, keys);
    if AnyStoppable(s, keys) { BroadcastObserves(StopAll(s, keys), s.feed); }
    else { NothingToStop(s, keys); }
  }

  lemma ObservedStreams(s: State)
    requires Formed(s) && Observed(s)
    ensures AllGapFree(s.feed.streams, s.feed.log)
    ensures forall n :: 0 <= n < |s.feed.log| ==> s.feed.log[n].id == n + 1
  {
  }

  lemma PrepareObserves(s: State, k: Key, desired: Owner)
    requires Formed(s) && Observed(s)
    ensures Observed(PrepareMode(s, k, desired).0)
  {
    hide Observed, Snapshot;
    if !PrepareRefused(s, k, desired) {
      var s1 := StopAdhoc(s, k);
      var s2 := if desired == Queue then StopKeepalive(s1, k) else s1;
      var s3 := if desired == Keepalive then StopQueue(s2, k) else s2;
      ObservedStreams(s);
      BroadcastObserves(s3, s.feed);
    }
  }

  lemma AddSubscriberObserves(s: State, k: Key, sub: Subscriber)
    requires Formed(s) && Observed(s) && k in s.cells
    ensures Observed(AddSubscriber(s, k, sub))
  {
    SameViewSameSnapshot(s, AddSubscriber(s, k, sub), k);
    SilentObserves(s, AddSubscriber(s, k, sub));
  }

  lemma ObserveObserves(s: State, buffer: int)
    requires Formed(s) && Observed(s)
    ensures Observed(Observe(s, buffer))
  {
    var t := Observe(s, buffer);
    assert Snapshot(t) == Snapshot(s);
    forall o | 0 <= o < |t.feed.streams| ensures GapFree(t.feed.streams[o], t.feed.log) {
      if o < |s.feed.streams| { assert GapFree(s.feed.streams[o], s.feed.log); }
    }
  }

  lemma ReaderObserves(s: State, o: nat, st: Stream<Event>)
    requires Formed(s) && Observed(s) && o < |s.feed.streams|
    requires st.sent == s.feed.streams[o].sent && st.since == s.feed.streams[o].since
    requires st.initial == s.feed.streams[o].initial && st.capacity == s.feed.streams[o].capacity
    requires s.feed.streams[o].received <= st.received <= |st.sent| && (st.open ==> s.feed.streams[o].open)
    ensures var t := s.(feed := s.feed.(streams := s.feed.streams[o := st])); Formed(t) && Observed(t)
  {
    var t := s.(feed := s.feed.(streams := s.feed.streams[o := st]));
    assert Snapshot(t) == Snapshot(s);
    forall p | 0 <= p < |t.feed.streams| ensures GapFree(t.feed.streams[p], t.feed.log) {
      assert GapFree(s.feed.streams[p], s.feed.log);
    }
  }

  // ---------------------------------------------------------------- every step keeps everything

  lemma TimeKeeps(s: State, env: Env)
    requires Core(s) && env == s.env.(now := env.now, rootDone := env.rootDone) && (s.env.rootDone ==> env.rootDone)
    ensures Core(s.(env := env))
  {
    forall i | 0 <= i < |s.workers| && !s.workers[i].pc.Done? && env.shuttingDown
      ensures s.workers[i].cancelled || s.workers[i].pc.Exit?
    {
      assert FitsIn(s, i);
    }
    hide Core;
    CancelsKeep(s, s.workers, env);
    assert s.(workers := s.workers, env := env) == s.(env := env);
  }

  lemma NextKeepsCore(s: State, step: Step)
    requires Core(s) && Formed(s) && NoRepeats(s.order) && Possible(s, step)
    ensures Core(Next(s, step))
  {
    hide Core, Around, Legal, FreshID, AreSamples, NoRepeats;
    match step
    case Go(i, choice) =>
      var w := s.workers[i];
      CoreAround(s, i);
      WorkLegal(s.cells[w.key], w, i, s.workers, s.pool, s.env, choice);
      LegalKeeps(s, i, Work(s.cells[w.key], w, i, s.pool, s.env, choice));
    case Prepare(k, desired) => PrepareModeKeeps(s, k, desired);
    case Join(k, sub) => JoinQueueKeeps(s, k, sub);
    case StartQueueRun(k, sub) => StartQueueKeeps(s, k, sub);
    case StartKeepaliveRun(k) => StartKeepaliveKeeps(s, k);
    case StopKeys(keys) => StopKeeps(s, keys);
    case StopID(id) => StopByIDKeeps(s, id);
    case Reserve(id) => ReserveAdhocKeeps(s, id);
    case HangUp(i) => DropRequestKeeps(s, i);
    case Settings(minimum, maximum, parallel, message, samples) =>
      UpdateSettingsKeeps(s, minimum, maximum, parallel, message, samples);
    case Shutdown => BeginShutdownKeeps(s);
    case Create(target) => CreateTargetKeeps(s, target);
    case Update(id, target) => UpdateTargetKeeps(s, id, target);
    case Delete(id) => DeleteTargetKeeps(s, id);
    case Subscribe(buffer) => FeedKeeps(s, Observe(s, buffer).feed);
    case Close(stream) => FeedKeeps(s, Unsubscribe(s, stream).feed);
    case Take(stream) => FeedKeeps(s, Receive(s, stream).feed);
    case Tick(elapsed) => TimeKeeps(s, s.env.(now := s.env.now + elapsed));
    case CancelRoot => TimeKeeps(s, s.env.(rootDone := true));
  }

  lemma StopperObserves(s: State, step: Step)
    requires Formed(s) && NoRepeats(s.order) && Observed(s) && Possible(s, step)
    requires step.Prepare? || step.StopKeys? || step.StopID?
    ensures Formed(Next(s, step)) && Observed(Next(s, step))
  {
    ObservedStreams(s);
    hide Observed, NoRepeats, Snapshot;
    match step
    case Prepare(k, desired) => PrepareObserves(s, k, desired);
    case StopKeys(keys) => StopObserves(s, keys);
    case StopID(id) =>
      var k := KeyOf(s.cells, s.order, id);
      if k.Some? && Busy(s.cells[k.value]) { BroadcastObserves(StopTarget(s, k.value), s.feed); }
    case _ =>
  }

  lemma SettingsObserves(s: State, step: Step)
    requires Formed(s) && NoRepeats(s.order) && Observed(s) && Possible(s, step) && step.Settings?
    ensures Formed(Next(s, step)) && Observed(Next(s, step))
  {
    ObservedStreams(s);
    hide Observed, NoRepeats, Snapshot;
    BroadcastObserves(s.(
      cells := CellsAfter(s, step.minimum, step.maximum, step.samples), pool := PoolAfter(s.pool, s.env, step.parallel),
      env := EnvAfter(s.env, step.minimum, step.maximum, step.parallel, step.message)), s.feed);
  }

  lemma SubscriberObserves(s: State, step: Step)
    requires Formed(s) && NoRepeats(s.order) && Observed(s) && Possible(s, step)
    requires step.Subscribe? || step.Close? || step.Take?
    ensures Formed(Next(s, step)) && Observed(Next(s, step))
  {
    hide Observed, NoRepeats, Snapshot;
    match step
    case Subscribe(buffer) => ObserveObserves(s, buffer);
    case Close(o) => ReaderObserves(s, o, s.feed.streams[o].(open := false));
    case Take(o) => ReaderObserves(s, o, s.feed.streams[o].(received := s.feed.streams[o].received + 1));
    case _ =>
  }

  // Nothing on the board changed: neither targets nor the process count nor the limit.
  lemma SameBoardObserves(s: State, t: State)
    requires Formed(s) && Observed(s)
    requires t.cells == s.cells && t.order == s.order && t.pool == s.pool && t.feed == s.feed
    requires t.env.maxParallel == s.env.maxParallel
    ensures Formed(t) && Observed(t)
  {
    assert Snapshot(t) == Snapshot(s);
  }

  lemma WorldObserves(s: State, step: Step)
    requires Formed(s) && NoRepeats(s.order) && Observed(s) && Possible(s, step)
    requires step.HangUp? || step.Shutdown? || step.Tick? || step.CancelRoot?
    ensures Formed(Next(s, step)) && Observed(Next(s, step))
  {
    SameBoardObserves(s, Next(s, step));
  }

  lemma StartObserves(s: State, step: Step)
    requires Formed(s) && NoRepeats(s.order) && Observed(s) && Possible(s, step)
    requires step.Join? || step.StartQueueRun? || step.StartKeepaliveRun? || step.Reserve?
    ensures Formed(Next(s, step)) && Observed(Next(s, step))
  {
    ObservedStreams(s);
    hide Observed, FreshID, NoRepeats, Snapshot;
    match step
    case Join(k, sub) =>
      if k in s.cells { AddSubscriberObserves(s, k, sub); }
    case StartQueueRun(k, sub) =>
      match StartQueueOutcome(s, k) {
        case Already => AddSubscriberObserves(s, k, sub);
        case Started =>
          var c := QueueStarted(s.cells[k], |s.workers|, s.env.now, sub);
          BroadcastObserves(Spawn(s, k, c, NewWorker(Queue, k, c.job.runID, Claim, c.job.subscribers)), s.feed);
        case _ =>
      }
    case StartKeepaliveRun(k) =>
      if StartKeepaliveOutcome(s, k) == Started {
        var c := KeepaliveStarted(s.cells[k], |s.workers|, s.env.now);
        BroadcastObserves(Spawn(s, k, c, NewWorker(Keepalive, k, c.keepalive.runID, Claim, map[])), s.feed);
      }
    case Reserve(id) =>
      if ReserveOutcome(s, id) == Reserved {
        var k, run := KeyOf(s.cells, s.order, id).value, s.env.nextAdhocRunID + 1;
        BroadcastObserves(
          Spawn(s.(env := s.env.(nextAdhocRunID := run)), k, AdhocReserved(s.cells[k], |s.workers|, run),
                NewWorker(Adhoc, k, run, Slot, map[])), s.feed);
      }
    case _ =>
  }

  lemma CreateObserves(s: State, target: Target)
    requires Formed(s) && Observed(s)
    ensures Observed(CreateTarget(s, target))
  {
    ObservedStreams(s);
    hide Observed, Snapshot, Normalize, SortTargets;
    if CreateOutcome(s, target.name) == Committed {
      var k := Normalize(target.name);
      var cells := s.cells[k := NewCell(target)];
      BroadcastObserves(s.(cells := cells, order := SortTargets(s.order + [k], cells)), s.feed);
    }
  }

  lemma UpdateObserves(s: State, id: int, target: Target)
    requires Formed(s) && NoRepeats(s.order) && Observed(s)
    ensures Observed(UpdateTarget(s, id, target))
  {
    ObservedStreams(s);
    hide Observed, NoRepeats, Snapshot, Normalize, SortTargets, CellsRenamed, OrderRenamed, Busy;
    if UpdateOutcome(s, id, target.name) == Committed {
      var k, newKey := KeyOf(s.cells, s.order, id).value, Normalize(target.name);
      RenamedIsListed(s.cells, s.order, k, newKey, target);
      var cells, order := CellsRenamed(s.cells, k, newKey, target), OrderRenamed(s.order, k, newKey);
      BroadcastObserves(s.(cells := cells, order := SortTargets(order, cells)), s.feed);
    }
  }

  lemma DeleteObserves(s: State, id: int)
    requires Formed(s) && NoRepeats(s.order) && Observed(s)
    ensures Observed(DeleteTarget(s, id))
  {
    ObservedStreams(s);
    hide Observed, NoRepeats, Snapshot, Without, Busy;
    if DeleteOutcome(s, id) == Committed {
      var k := KeyOf(s.cells, s.order, id).value;
      WithoutIsListed(s.cells, s.order, k);
      BroadcastObserves(s.(cells := s.cells - {k}, order := Without(s.order, k)), s.feed);
    }
  }

  lemma CommitObserves(s: State, step: Step)
    requires Formed(s) && NoRepeats(s.order) && Observed(s) && Possible(s, step)
    requires step.Create? || step.Update? || step.Delete?
    ensures Formed(Next(s, step)) && Observed(Next(s, step))
  {
    hide Observed, FreshID, NoRepeats, CreateTarget, UpdateTarget, DeleteTarget;
    match step
    case Create(target) => CreateObserves(s, target);
    case Update(id, target) => UpdateObserves(s, id, target);
    case Delete(id) => DeleteObserves(s, id);
    case _ =>
  }

  lemma NextKeepsObserved(s: State, step: Step)
    requires Core(s) && Formed(s) && NoRepeats(s.order) && Possible(s, step) && Observed(s)
    ensures Formed(Next(s, step)) && Observed(Next(s, step))
  {
    hide Core, Observed, FreshID, AreSamples, NoRepeats, Next, Formed;
    match step
    case Go(i, choice) => WorkObserves(s, i, choice);
    case Prepare(_, _) => StopperObserves(s, step);
    case StopKeys(_) => StopperObserves(s, step);
    case StopID(_) => StopperObserves(s, step);
    case Join(_, _) => StartObserves(s, step);
    case StartQueueRun(_, _) => StartObserves(s, step);
    case StartKeepaliveRun(_) => StartObserves(s, step);
    case Reserve(_) => StartObserves(s, step);
    case Settings(_, _, _, _, _) => SettingsObserves(s, step);
    case HangUp(_) => WorldObserves(s, step);
    case Shutdown => WorldObserves(s, step);
    case Tick(_) => WorldObserves(s, step);
    case CancelRoot => WorldObserves(s, step);
    case Create(_) => CommitObserves(s, step);
    case Update(_, _) => CommitObserves(s, step);
    case Delete(_) => CommitObserves(s, step);
    case Subscribe(_) => SubscriberObserves(s, step);
    case Close(_) => SubscriberObserves(s, step);
    case Take(_) => SubscriberObserves(s, step);
  }

  // ---------------------------------------------------------------- runs

  // What holds in every state of every run.
  ghost predicate IsSound(s: State) {
    Core(s) && Observed(s)
  }

  const EMPTY := State(map[], [], [], Pool(0, 0, 0, 0), Env(1, 1, 1, 0, false, 0, false, ""), Feed([], []))

  lemma EmptyIsSound()
    ensures IsSound(EMPTY)
  {
  }

  type Sound = s: State | IsSound(s) ghost witness (EmptyIsSound(); EMPTY)

  // A step that is not possible does not happen.
  ghost function Apply(s: Sound, step: Step): Sound {
    CoreListing(s);
    if !Possible(s, step) then s
    else
      NextKeepsCore(s, step);
      NextKeepsObserved(s, step);
      Next(s, step)
  }

  ghost function Run(s: Sound, steps: seq<Step>): Sound {
    if steps == [] then s else Apply(Run(s, steps[..|steps| - 1]), steps[|steps| - 1])
  }

  // ---------------------------------------------------------------- the start

  // What Load hands to New: sorted rows with ids and normalized names of their own.
  ghost predicate Bootable(targets: seq<Target>) {
    && (forall i, j :: 0 <= i < j < |targets| ==>
      Before(targets[i], targets[j]) && Normalize(targets[i].name) != Normalize(targets[j].name))
    && (forall i, j :: 0 <= i < j < |targets| ==> targets[i].id != targets[j].id)
  }

  function CellsFor(targets: seq<Target>): map<Key, Cell> {
    if targets == [] then map[]
    else CellsFor(targets[..|targets| - 1])[
      Normalize(targets[|targets| - 1].name) := NewCell(targets[|targets| - 1])]
  }

  function OrderFor(targets: seq<Target>): seq<Key> {
    seq(|targets|, n requires 0 <= n < |targets| => Normalize(targets[n].name))
  }

  // New
  function NewManager(targets: seq<Target>, env: Env): State {
    State(CellsFor(targets), OrderFor(targets), [], Pool(0, 0, 0, 0),
          env.(nextAdhocRunID := 0, shuttingDown := false), Feed([], []))
  }

  // Row n is filed under k.
  predicate FiledAt(targets: seq<Target>, n: int, k: Key) {
    0 <= n < |targets| && Normalize(targets[n].name) == k
  }

  lemma {:induction false} CellsForHolds(targets: seq<Target>)
    requires Bootable(targets)
    ensures forall n, k :: FiledAt(targets, n, k) ==>
      k in CellsFor(targets) && CellsFor(targets)[k] == NewCell(targets[n])
    ensures forall k <- CellsFor(targets) :: exists n :: FiledAt(targets, n, k)
  {
    hide Normalize;
    if targets != [] {
      var m := |targets| - 1;
      var front := targets[..m];
      CellsForHolds(front);
      forall n, k | FiledAt(targets, n, k)
        ensures k in CellsFor(targets) && CellsFor(targets)[k] == NewCell(targets[n])
      {
        if n < m { assert FiledAt(front, n, k); }
      }
      forall k <- CellsFor(targets) ensures exists n :: FiledAt(targets, n, k) {
        if k == Normalize(targets[m].name) { assert FiledAt(targets, m, k); }
        else { var n :| FiledAt(front, n, k); assert FiledAt(targets, n, k); }
      }
    }
  }

  // Every entry is a new one, filed under its normalized name.
  lemma NewEntries(targets: seq<Target>, k: Key)
    requires Bootable(targets) && k in CellsFor(targets)
    ensures k in OrderFor(targets) && k == Normalize(CellsFor(targets)[k].target.name) && Vacant(CellsFor(targets)[k])
  {
    hide Normalize;
    CellsForHolds(targets);
    var n :| FiledAt(targets, n, k);
    assert OrderFor(targets)[n] == k;
  }

  lemma NewOrder(targets: seq<Target>)
    requires Bootable(targets)
    ensures Listed(CellsFor(targets), OrderFor(targets)) && InOrder(CellsFor(targets), OrderFor(targets))
    ensures NoRepeats(OrderFor(targets))
  {
    hide Normalize;
    CellsForHolds(targets);
    var cells, order := CellsFor(targets), OrderFor(targets);
    forall n | 0 <= n < |order| ensures order[n] in cells && cells[order[n]] == NewCell(targets[n]) {
      assert FiledAt(targets, n, order[n]);
    }
  }

  lemma NewIDs(targets: seq<Target>, k: Key, l: Key)
    requires Bootable(targets) && k in CellsFor(targets) && l in CellsFor(targets)
    requires CellsFor(targets)[k].target.id == CellsFor(targets)[l].target.id
    ensures k == l
  {
    hide Normalize;
    CellsForHolds(targets);
    var n :| FiledAt(targets, n, k);
    var m :| FiledAt(targets, m, l);
    assert targets[n].id == targets[m].id;
  }

  lemma NewIsRegistered(targets: seq<Target>)
    requires Bootable(targets)
    ensures Registered(CellsFor(targets), OrderFor(targets))
    ensures forall k <- CellsFor(targets) :: Vacant(CellsFor(targets)[k])
  {
    NewOrder(targets);
    var cells := CellsFor(targets);
    hide Normalize, Bootable, CellsFor, InOrder, NoRepeats;
    forall k <- cells ensures k in OrderFor(targets) && k == Normalize(cells[k].target.name) && Vacant(cells[k]) {
      NewEntries(targets, k);
    }
    forall k, l | k in cells && l in cells && cells[k].target.id == cells[l].target.id ensures k == l {
      NewIDs(targets, k, l);
    }
  }

  lemma NewIsSound(targets: seq<Target>, env: Env)
    requires Bootable(targets)
    ensures IsSound(NewManager(targets, env))
  {
    NewIsRegistered(targets);
    hide Registered, Vacant, Shaped, Tallied;
    var s := NewManager(targets, env);
    RegisteredIsListed(s.cells, s.order);
    forall k <- s.cells ensures Shaped(s.cells[k], k, s.workers, s.env) && Tallied(s.cells[k], k, s.workers) {
      IdleFits(s.cells[k], k, s.workers, s.env);
    }
  }
}
