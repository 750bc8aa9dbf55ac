/** How the manager's four maps hold what the protocol keeps together per target, and what a section writes to them. */
module JobTables {
  import opened Text
  import opened Targets
  import opened Streams
  import opened JobState
  import opened JobSteps
  import opened JobRegistry
  import opened JobApi
  import opened JobInvariant
  import opened JobRuns
  import opened JobRegistryKeeps
  import opened JobSafety
  import opened JobOutcomes

  function Rows(cells: map<Key, Cell>): map<Key, Target> {
    map k | k in cells :: cells[k].target
  }

  function Jobs(cells: map<Key, Cell>): map<Key, Job> {
    map k | k in cells :: cells[k].job
  }

  function Keepalives(cells: map<Key, Cell>): map<Key, KeepaliveJob> {
    map k | k in cells :: cells[k].keepalive
  }

  function Arbiters(cells: map<Key, Cell>): map<Key, Arbiter> {
    map k | k in cells :: cells[k].arbiter
  }

  predicate TablesAt(cells: map<Key, Cell>, k: Key) {
    && (k in Rows(cells) <==> k in cells) && (k in cells ==> Rows(cells)[k] == cells[k].target)
    && (k in Jobs(cells) <==> k in cells) && (k in cells ==> Jobs(cells)[k] == cells[k].job)
    && (k in Keepalives(cells) <==> k in cells) && (k in cells ==> Keepalives(cells)[k] == cells[k].keepalive)
    && (k in Arbiters(cells) <==> k in cells) && (k in cells ==> Arbiters(cells)[k] == cells[k].arbiter)
  }

  lemma TableEntries(cells: map<Key, Cell>, k: Key)
    ensures TablesAt(cells, k)
  {
  }

  // The maps once k's entry is c.
  predicate TablesWith(cells: map<Key, Cell>, k: Key, c: Cell, after: map<Key, Cell>) {
    && Rows(after) == Rows(cells)[k := c.target]
    && Jobs(after) == Jobs(cells)[k := c.job]
    && Keepalives(after) == Keepalives(cells)[k := c.keepalive]
    && Arbiters(after) == Arbiters(cells)[k := c.arbiter]
  }

  // Writing back what is there changes nothing.
  predicate TablesIdle(cells: map<Key, Cell>, k: Key)
    requires k in cells
  {
    && Rows(cells)[k := cells[k].target] == Rows(cells)
    && Jobs(cells)[k := cells[k].job] == Jobs(cells)
    && Keepalives(cells)[k := cells[k].keepalive] == Keepalives(cells)
    && Arbiters(cells)[k := cells[k].arbiter] == Arbiters(cells)
  }

  lemma TablesUpdate(cells: map<Key, Cell>, k: Key, c: Cell)
    ensures TablesAt(cells, k) && TablesWith(cells, k, c, cells[k := c]) && (k in cells ==> TablesIdle(cells, k))
  {
  }

  // Of two writes to one entry the later one stands.
  lemma LaterStands<V>(m: map<Key, V>, k: Key, v: V, w: V)
    ensures m[k := v][k := w] == m[k := w]
  {
  }

  // ---------------------------------------------------------------- a goroutine's section

  // Goroutine i runs a section next, and nothing keeps it from doing so.
  predicate CanRun(s: State, i: nat, choice: Choice) {
    Live(s, i) && Enabled(s.cells[s.workers[i].key], s.workers[i], s.pool, s.env, choice)
  }

  // The state of the protocol after that section.
  function Stepped(s: State, i: nat, choice: Choice): State
    requires Formed(s) && CanRun(s, i, choice)
  {
    Commit(s, i, Work(s.cells[s.workers[i].key], s.workers[i], i, s.pool, s.env, choice))
  }

  // It is what a run of the protocol does with that step.
  lemma SteppedIsApplied(s: Sound, i: nat, choice: Choice)
    requires CanRun(s, i, choice)
    ensures Formed(s) && Stepped(s, i, choice) == Apply(s, Go(i, choice))
  {
    CoreListing(s);
    hide Core, Observed, Work, Commit;
  }

  // What a section leaves behind before it broadcasts.
  function Written(s: State, i: nat, e: Effect): State
    requires i < |s.workers|
  {
    s.(cells := s.cells[s.workers[i].key := e.cell], workers := s.workers[i := e.worker], pool := e.pool)
  }

  // What the section reads, what it writes, and whether it broadcasts.
  lemma Plan(s: State, i: nat, choice: Choice, e: Effect)
    requires Formed(s) && CanRun(s, i, choice)
    requires e == Work(s.cells[s.workers[i].key], s.workers[i], i, s.pool, s.env, choice)
    ensures Formed(Written(s, i, e))
    ensures TablesAt(s.cells, s.workers[i].key) && TablesIdle(s.cells, s.workers[i].key)
    ensures TablesWith(s.cells, s.workers[i].key, e.cell, Written(s, i, e).cells)
    ensures Stepped(s, i, choice) == BroadcastIf(e.loud, Written(s, i, e))
  {
    TablesUpdate(s.cells, s.workers[i].key, e.cell);
    hide Work, Snapshot, Publish, TablesAt, TablesWith, TablesIdle;
  }

  // What a keepalive writes when it starts a call.
  lemma KeepaliveEntered(c: Cell, w: Worker, i: nat, pool: Pool, env: Env)
    requires KeepaliveCurrent(c.keepalive, w) && !KeepaliveBlocked(c) && w.kind == Keepalive
    ensures var e := BeginKeepalive(c, w, i, pool, env);
      && e.cell.target == c.target && e.cell.job == c.job
      && e.cell.keepalive == c.keepalive.(
           state := Requesting, requests := c.keepalive.requests + 1, lastRequest := Some(env.now), nextRequest := None)
      && e.cell.arbiter == c.arbiter.(owner := Keepalive, ownerRunID := w.runID)
      && e.worker == w.(pc := InRunner, calls := w.calls + [c.keepalive.requests + 1])
      && e.pool == pool.(processes := pool.processes + 1) && e.loud
  {
  }

  // It waits, is inside the runner, or is between finishProcess and its next section.
  predicate Resumes(w: Worker) {
    || w.pc.ClaimWait? || w.pc.SlotWait? || w.pc.SleepWait? || w.pc.InRunner?
    || (w.pc.Returned? && !(w.kind == Queue && w.pc.result.success))
  }

  // Such a goroutine moves on without the lock: only its program counter changes.
  lemma ResumingIsQuiet(s: State, i: nat, choice: Choice)
    requires Formed(s) && CanRun(s, i, choice) && Resumes(s.workers[i])
    ensures var w := s.workers[i];
      var pc := match w.pc
        case ClaimWait(_) => if choice == Wake then Claim else Cancel
        case SlotWait(_) => if choice == Wake then Slot else if w.kind == Adhoc then Exit(false, false) else Cancel
        case SleepWait(_, _) => if choice == Wake then Sleep else if choice == GiveUp then Cancel else Claim
        case InRunner => if w.kind == Adhoc then Exit(true, true) else Finish(choice.result)
        case Returned(result) => if w.cancelled || s.env.rootDone then Cancel else Mark(result)
        case _ => Done;
      var results := if w.pc.InRunner? then w.results + [choice.result] else w.results;
      Stepped(s, i, choice) == s.(workers := s.workers[i := w.(pc := pc, results := results)])
  {
    var k := s.workers[i].key;
    assert s.cells[k := s.cells[k]] == s.cells;
    hide Formed, Snapshot, Publish;
  }

  // Every subscriber once, in some order.
  ghost predicate ListsAll(list: seq<Subscriber>, subscribers: Subscribers) {
    exists keys: seq<string> ::
      && |keys| == |list| && NoRepeats(keys) && (forall k :: k in keys <==> k in subscribers)
      && forall n :: 0 <= n < |keys| ==> keys[n] in subscribers && list[n] == subscribers[keys[n]]
  }

  // A run that is current is cancelled through the function its target has.
  predicate OwnCancel(s: State, i: nat)
    requires Live(s, i)
  {
    QueueCurrent(s.cells[s.workers[i].key].job, s.workers[i]) ==> s.cells[s.workers[i].key].job.cancel == Some(i)
  }

  lemma SoundOwnCancel(s: Sound, i: nat)
    requires Live(s, i) && s.workers[i].kind == Queue
    ensures OwnCancel(s, i)
  {
    assert FitsIn(s, i);
    hide Core, Observed;
  }

  // The worker counters never go below zero.
  ghost predicate Counts(s: State) {
    forall k <- s.cells :: s.cells[k].job.workers >= 0 && s.cells[k].keepalive.workers >= 0
  }

  lemma SoundCounts(s: Sound)
    ensures Counts(s)
  {
    forall k <- s.cells ensures s.cells[k].job.workers >= 0 && s.cells[k].keepalive.workers >= 0 {
      assert Tallied(s.cells[k], k, s.workers);
    }
    hide Core, Observed;
  }

  // Stopping one mode neither starts nor stops the other.
  lemma StopsLeaveEachOther(s: State, k: Key)
    requires Formed(s) && Counts(s) && k in s.cells
    ensures var s1 := StopQueue(s, k);
      && s1.cells[k].keepalive == s.cells[k].keepalive
      && (!(s.cells[k].job.state == Running || s.cells[k].job.workers > 0) ==> s1 == s)
      && (!(s.cells[k].keepalive.state != Off || s.cells[k].keepalive.workers > 0) ==> StopKeepalive(s1, k) == s1)
  {
  }

  // ---------------------------------------------------------------- stop's report

  // The names of those of the targets that had something to stop, or of those that had not.
  function NamesOf(cells: map<Key, Cell>, keys: seq<Key>, stoppable: bool): seq<string>
    requires forall k <- keys :: k in cells
  {
    if keys == [] then []
    else
      var last := keys[|keys| - 1];
      NamesOf(cells, keys[..|keys| - 1], stoppable)
      + if Stoppable(cells[last]) == stoppable then [cells[last].target.name] else []
  }

  lemma StopNothing(s: State, keys: seq<Key>)
    requires Formed(s) && forall k <- keys :: k in s.cells
    ensures StopAll(s, keys[..0]) == s && !AnyStoppable(s, keys[..0])
    ensures NamesOf(s.cells, keys[..0], true) == [] && NamesOf(s.cells, keys[..0], false) == []
  {
  }

  // What stop does, one target further.
  lemma StopMore(s: State, keys: seq<Key>, n: nat)
    requires Formed(s) && n < |keys| && keys[n] in s.cells
    ensures StopAll(s, keys[..n + 1]) == StopTarget(StopAll(s, keys[..n]), keys[n])
    ensures AnyStoppable(s, keys[..n + 1]) == (AnyStoppable(s, keys[..n]) || Stoppable(s.cells[keys[n]]))
  {
    assert keys[..n + 1] == keys[..n] + [keys[n]];
    assert keys[..n + 1][..n] == keys[..n];
    hide Stoppable, StopTarget;
  }

  // The names, one target further.
  lemma NamesMore(cells: map<Key, Cell>, keys: seq<Key>, n: nat, stoppable: bool)
    requires n < |keys| && forall k <- keys :: k in cells
    ensures NamesOf(cells, keys[..n + 1], stoppable)
      == NamesOf(cells, keys[..n], stoppable)
         + if Stoppable(cells[keys[n]]) == stoppable then [cells[keys[n]].target.name] else []
  {
    assert keys[..n + 1][..n] == keys[..n];
    hide Stoppable;
  }

  lemma OwnerIsCounted(s: Sound, k: Key)
    requires k in s.cells
    ensures s.cells[k].arbiter.owner == Queue ==> s.cells[k].job.workers > 0
    ensures s.cells[k].arbiter.owner == Keepalive ==> s.cells[k].keepalive.workers > 0
  {
    hide Core, Observed;
    TargetFacts(s, k);
    NobodyIsCounted(s, k, Queue);
    NobodyIsCounted(s, k, Keepalive);
  }

  // There is something to stop exactly where somebody works.
  lemma StoppableIsWorkedOn(s: Sound, k: Key)
    requires k in s.cells
    ensures Stoppable(s.cells[k]) <==> !NoneWorksOn(s.workers, k)
  {
    hide Core, Observed, NoneWorksOn;
    IdleIsEmpty(s, k);
    OwnerIsCounted(s, k);
    NobodyIsCounted(s, k, Queue);
    NobodyIsCounted(s, k, Keepalive);
  }

  // The report is right: it has each target once, by name, as stopped if somebody worked on it and as inactive if
  // nobody did.
  lemma {:induction false} ReportIsExact(s: Sound, keys: seq<Key>, name: string)
    requires forall k <- keys :: k in s.cells
    ensures |NamesOf(s.cells, keys, true)| + |NamesOf(s.cells, keys, false)| == |keys|
    ensures name in NamesOf(s.cells, keys, true) <==>
      exists k <- keys :: s.cells[k].target.name == name && !NoneWorksOn(s.workers, k)
    ensures name in NamesOf(s.cells, keys, false) <==>
      exists k <- keys :: s.cells[k].target.name == name && NoneWorksOn(s.workers, k)
  {
    hide IsSound, NoneWorksOn, Stoppable;
    if keys != [] {
      var front, last := keys[..|keys| - 1], keys[|keys| - 1];
      assert keys == front + [last];
      ReportIsExact(s, front, name);
      StoppableIsWorkedOn(s, last);
    }
  }

  // Stopping one mode of a target leaves the other targets alone, and the counters.
  predicate OnlyStops(s: State, t: State, k: Key) {
    && t.cells.Keys == s.cells.Keys && t.order == s.order
    && forall l <- s.cells ::
      && t.cells[l].job.workers == s.cells[l].job.workers
      && t.cells[l].keepalive.workers == s.cells[l].keepalive.workers
      && (l != k ==> t.cells[l] == s.cells[l])
  }

  lemma StopQueueIsLocal(s: State, k: Key)
    requires Formed(s)
    ensures OnlyStops(s, StopQueue(s, k), k)
  {
  }

  lemma StopKeepaliveIsLocal(s: State, k: Key)
    requires Formed(s)
    ensures OnlyStops(s, StopKeepalive(s, k), k)
  {
  }

  lemma StopAdhocIsLocal(s: State, k: Key)
    requires Formed(s)
    ensures OnlyStops(s, StopAdhoc(s, k), k)
  {
  }

  lemma OnlyStopsOn(s: State, t: State, u: State, k: Key)
    requires OnlyStops(s, t, k) && OnlyStops(t, u, k)
    ensures OnlyStops(s, u, k)
  {
  }

  lemma StopTargetIsLocal(s: State, k: Key)
    requires Formed(s)
    ensures OnlyStops(s, StopTarget(s, k), k)
  {
    hide OnlyStops, StopQueue, StopKeepalive, StopAdhoc;
    var s1 := StopQueue(s, k);
    var s2 := StopKeepalive(s1, k);
    StopQueueIsLocal(s, k);
    StopKeepaliveIsLocal(s1, k);
    StopAdhocIsLocal(s2, k);
    OnlyStopsOn(s, s1, s2, k);
    OnlyStopsOn(s, s2, StopAdhoc(s2, k), k);
  }

  // When stop comes to a target, that is as it was in the beginning.
  lemma {:induction false} StopAllIsLocal(s: State, keys: seq<Key>, n: nat)
    requires Formed(s) && Counts(s) && n <= |keys| && NoRepeats(keys)
    ensures var t := StopAll(s, keys[..n]);
      Counts(t) && forall m :: n <= m < |keys| && keys[m] in s.cells ==> t.cells[keys[m]] == s.cells[keys[m]]
  {
    hide StopTarget;
    if n > 0 {
      StopAllIsLocal(s, keys, n - 1);
      assert keys[..n][..n - 1] == keys[..n - 1];
      StopTargetIsLocal(StopAll(s, keys[..n - 1]), keys[n - 1]);
    }
  }

  // One of the names is a spelling of k.
  predicate NamedIn(names: seq<string>, k: Key) {
    exists name <- names :: Normalize(name) == k
  }

  // A name the manager has no target for.
  predicate Missing(cells: map<Key, Cell>, name: string) {
    Normalize(name) != "" && Normalize(name) !in cells
  }

  lemma {:induction false} ResolveEachIsExact(cells: map<Key, Cell>, names: seq<string>, seen: set<Key>)
    ensures var (keys, unknown) := ResolveEach(cells, names, seen);
      && (forall k <- keys :: k in cells && k !in seen)
      && (forall m, n :: 0 <= m < n < |keys| ==> keys[m] != keys[n])
      && (forall name <- names :: Normalize(name) in cells && Normalize(name) != "" && Normalize(name) !in seen ==>
            Normalize(name) in keys)
      && (forall k <- keys :: NamedIn(names, k))
      && (forall name <- unknown :: name in names && Normalize(name) !in cells)
      && (forall name <- names :: Missing(cells, name) && Normalize(name) !in seen ==>
            NamedIn(unknown, Normalize(name)))
  {
    hide Normalize;
    if names != [] {
      var k := Normalize(names[0]);
      assert names == [names[0]] + names[1..];
      ResolveEachIsExact(cells, names[1..], if k == "" || k in seen then seen else seen + {k});
    }
  }

  // A request names its targets exactly. A request for all means all of them, in the manager's order; any other means
  // each target whose name is asked for, once, and no others, and reports as unknown just the names the manager does
  // not have, each in one of its spellings.
  lemma ResolveIsExact(cells: map<Key, Cell>, order: seq<Key>, names: seq<string>)
    requires Listed(cells, order) && NoRepeats(order)
    ensures var (keys, unknown) := Resolve(cells, order, names);
      && NoRepeats(keys) && (forall k <- keys :: k in cells)
      && if AsksForAll(names) then keys == order && unknown == []
         else
           && (forall k <- keys :: NamedIn(names, k))
           && (forall name <- names :: Normalize(name) in cells && Normalize(name) != "" ==> Normalize(name) in keys)
           && (forall name <- unknown :: name in names && Normalize(name) !in cells)
           && (forall name <- names :: Missing(cells, name) ==> NamedIn(unknown, Normalize(name)))
  {
    hide Normalize;
    ResolveEachIsExact(cells, names, {});
  }

  predicate SaysAll(t: string) {
    |t| == 3 && (t[0] == 'a' || t[0] == 'A') && (t[1] == 'l' || t[1] == 'L') && (t[2] == 'l' || t[2] == 'L')
  }

  predicate Wildcard(t: string) {
    SaysAll(t) || t == "*" || t == "全部"
  }

  lemma WildcardsAreRead(t: string)
    requires Wildcard(t) && UNICODE_LOWER('全') == '全' && UNICODE_LOWER('部') == '部'
    ensures ToLower(t) == "all" || ToLower(t) == "*" || ToLower(t) == "全部"
  {
    if SaysAll(t) { assert ToLower(t) == "all"; }
    else if t == "*" { assert ToLower(t) == "*"; }
    else { assert ToLower(t) == "全部"; }
  }

  // No name at all means all, and so does any name that says "all" in whatever case, an asterisk, or the Chinese word.
  lemma AllMeansAll(cells: map<Key, Cell>, order: seq<Key>, names: seq<string>)
    requires names == [] || exists name <- names :: Wildcard(TrimSpace(name))
    requires UNICODE_LOWER('全') == '全' && UNICODE_LOWER('部') == '部'
    ensures Resolve(cells, order, names) == (order, [])
  {
    if names != [] {
      var name :| name in names && Wildcard(TrimSpace(name));
      hide TrimSpace;
      WildcardsAreRead(TrimSpace(name));
      assert Normalize(name) in {"all", "全部", "*"};
    }
  }

  // A list of one name of another length is a request for that target alone.
  lemma OneNameMeansOne(cells: map<Key, Cell>, order: seq<Key>, name: string)
    requires |TrimSpace(name)| > 3 && Normalize(name) in cells
    ensures Resolve(cells, order, [name]) == ([Normalize(name)], [])
  {
    var k := Normalize(name);
    assert |k| > 3 && k != "";
    hide Normalize, TrimSpace;
    assert !AsksForAll([name]);
    assert [name][1..] == [];
    assert ResolveEach(cells, [], {k}) == ([], []);
    assert ResolveEach(cells, [name], {}) == ([k] + [], []) && [k] + [] == [k];
  }

  // ---------------------------------------------------------------- starting a run, in the source's order

  lemma StartQueueRefused(s: State, k: Key, sub: Subscriber)
    requires Formed(s) && StartQueueOutcome(s, k) != Started
    ensures StartQueue(s, k, sub)
      == if StartQueueOutcome(s, k) == Already && !s.env.shuttingDown then AddSubscriber(s, k, sub) else s
  {
  }

  // The target when startQueue broadcasts: running, but its goroutine is not counted and nobody is signalled yet.
  function QueueAnnounced(s: State, k: Key, sub: Subscriber): Cell
    requires k in s.cells
  {
    var c := QueueStarted(s.cells[k], |s.workers|, s.env.now, sub);
    c.(arbiter := s.cells[k].arbiter, job := c.job.(workers := s.cells[k].job.workers))
  }

  // What is left to do then: signal, count the goroutine, and start it.
  function QueueGoes(s: State, k: Key): State
    requires k in s.cells
  {
    var d := s.cells[k];
    s.(cells := s.cells[k := d.(arbiter := Signal(d.arbiter), job := d.job.(workers := d.job.workers + 1))],
       workers := s.workers + [NewWorker(Queue, k, d.job.runID, Claim, d.job.subscribers)],
       pool := s.pool.(running := s.pool.running + 1))
  }

  // The goroutine is not seen yet: broadcasting before it is started shows what broadcasting after would.
  lemma StartQueueInSteps(s: State, k: Key, sub: Subscriber)
    requires Formed(s) && StartQueueOutcome(s, k) == Started
    ensures var announced := s.(cells := s.cells[k := QueueAnnounced(s, k, sub)]);
      && Formed(announced) && k in Broadcast(announced).cells
      && StartQueue(s, k, sub) == QueueGoes(Broadcast(announced), k)
  {
    hide WithSubscriber, Publish;
    var d := QueueAnnounced(s, k, sub);
    var announced := s.(cells := s.cells[k := d]);
    var c := QueueStarted(s.cells[k], |s.workers|, s.env.now, sub);
    var started := Spawn(s, k, c, NewWorker(Queue, k, c.job.runID, Claim, c.job.subscribers));
    assert started.cells == announced.cells[k := c];
    SameViewSameSnapshot(announced, started, k);
  }

  lemma StartKeepaliveRefused(s: State, k: Key)
    requires Formed(s) && StartKeepaliveOutcome(s, k) != Started
    ensures StartKeepalive(s, k) == s
  {
  }

  // The same for startKeepalive.
  function KeepaliveAnnounced(s: State, k: Key): Cell
    requires k in s.cells
  {
    var c := KeepaliveStarted(s.cells[k], |s.workers|, s.env.now);
    c.(arbiter := s.cells[k].arbiter, keepalive := c.keepalive.(workers := s.cells[k].keepalive.workers))
  }

  function KeepaliveGoes(s: State, k: Key): State
    requires k in s.cells
  {
    var d := s.cells[k];
    s.(cells := s.cells[k := d.(
         arbiter := Signal(d.arbiter), keepalive := d.keepalive.(workers := d.keepalive.workers + 1))],
       workers := s.workers + [NewWorker(Keepalive, k, d.keepalive.runID, Claim, map[])],
       pool := s.pool.(running := s.pool.running + 1))
  }

  lemma StartKeepaliveInSteps(s: State, k: Key)
    requires Formed(s) && StartKeepaliveOutcome(s, k) == Started
    ensures var announced := s.(cells := s.cells[k := KeepaliveAnnounced(s, k)]);
      && Formed(announced) && k in Broadcast(announced).cells
      && StartKeepalive(s, k) == KeepaliveGoes(Broadcast(announced), k)
  {
    hide Publish;
    var d := KeepaliveAnnounced(s, k);
    var announced := s.(cells := s.cells[k := d]);
    var c := KeepaliveStarted(s.cells[k], |s.workers|, s.env.now);
    var started := Spawn(s, k, c, NewWorker(Keepalive, k, c.keepalive.runID, Claim, map[]));
    assert started.cells == announced.cells[k := c];
    SameViewSameSnapshot(announced, started, k);
  }

  // prepareMode's stops: where the source skips one, it would have done nothing.
  lemma PrepareStops(s: State, k: Key)
    requires Formed(s) && Counts(s) && k in s.cells
    ensures var t, c := StopAdhoc(s, k), s.cells[k];
      && k in t.cells
      && (c.arbiter.owner != Adhoc ==> t == s)
      && (KeepaliveActive(c) <==> c.keepalive.state != Off || c.keepalive.workers > 0)
      && (QueueActive(c) <==> c.job.state == Running || c.job.workers > 0)
      && (!KeepaliveActive(c) ==> StopKeepalive(t, k) == t)
      && (!QueueActive(c) ==> StopQueue(t, k) == t)
  {
  }

  // ---------------------------------------------------------------- the other sections

  // RunAdhoc's reservation before it broadcasts.
  function AdhocSpawned(s: State, k: Key): (r: State)
    requires Formed(s) && k in s.cells
    ensures Formed(r)
  {
    var run := s.env.nextAdhocRunID + 1;
    Spawn(s.(env := s.env.(nextAdhocRunID := run)), k, AdhocReserved(s.cells[k], |s.workers|, run),
          NewWorker(Adhoc, k, run, Slot, map[]))
  }

  lemma AdhocIsSpawned(s: State, id: int, k: Key)
    requires Formed(s) && ReserveOutcome(s, id) == Reserved && KeyOf(s.cells, s.order, id) == Some(k)
    ensures ReserveAdhoc(s, id) == Broadcast(AdhocSpawned(s, k))
  {
  }

  lemma SettingsTables(s: State, minimum: int, maximum: int, samples: map<Key, int>)
    requires AreSamples(s.cells, samples, minimum, maximum)
    ensures var cells := CellsAfter(s, minimum, maximum, samples);
      Rows(cells) == Rows(s.cells) && Jobs(cells) == Jobs(s.cells) && Arbiters(cells) == Arbiters(s.cells)
  {
  }

  lemma SettingsFormed(s: State, t: State)
    requires Formed(s) && t.cells.Keys == s.cells.Keys && t.order == s.order && t.feed == s.feed
    ensures Formed(t)
  {
  }

  function QueueCancels(jobs: map<Key, Job>): map<Key, Option<nat>> {
    map k | k in jobs :: jobs[k].cancel
  }

  function KeepaliveCancels(keepalives: map<Key, KeepaliveJob>): map<Key, Option<nat>> {
    map k | k in keepalives :: keepalives[k].cancel
  }

  function AdhocCancels(arbiters: map<Key, Arbiter>): map<Key, Option<nat>> {
    map k | k in arbiters :: if arbiters[k].owner == Adhoc then arbiters[k].cancel else None
  }

  // Goroutine i's cancel function is among them, leaving out those of `rest`.
  predicate Cancels(cancels: map<Key, Option<nat>>, rest: set<Key>, i: nat) {
    exists k <- cancels :: k !in rest && cancels[k] == Some(i)
  }

  function CancelledIf(w: Worker, hit: bool): Worker {
    if hit then w.(cancelled := true) else w
  }

  lemma CancelledByOneOf(cells: map<Key, Cell>, i: nat)
    ensures ToCancel(cells, i) <==>
      || Cancels(QueueCancels(Jobs(cells)), {}, i) || Cancels(KeepaliveCancels(Keepalives(cells)), {}, i)
      || Cancels(AdhocCancels(Arbiters(cells)), {}, i)
  {
    var q, p, a := QueueCancels(Jobs(cells)), KeepaliveCancels(Keepalives(cells)), AdhocCancels(Arbiters(cells));
    if ToCancel(cells, i) {
      var k :| k in cells && (cells[k].job.cancel == Some(i) || cells[k].keepalive.cancel == Some(i)
          || (cells[k].arbiter.owner == Adhoc && cells[k].arbiter.cancel == Some(i)));
      assert k in q && k in p && k in a;
    }
  }

  // Targets with nothing but their settings: sorting looks at no more.
  function Settled(targets: map<Key, Target>): map<Key, Cell> {
    map k | k in targets :: NewCell(targets[k])
  }

  // Listings that agree on the settings of what they list.
  predicate SameRows(order: seq<Key>, cells: map<Key, Cell>, cells': map<Key, Cell>) {
    forall x <- order :: x in cells && x in cells' && cells[x].target == cells'[x].target
  }

  lemma {:induction false} InsertByRows(order: seq<Key>, k: Key, cells: map<Key, Cell>, cells': map<Key, Cell>)
    requires SameRows(order, cells, cells') && SameRows([k], cells, cells')
    ensures k in cells && k in cells' && Listed(cells, order) && Listed(cells', order)
    ensures Insert(order, k, cells) == Insert(order, k, cells')
  {
    assert k in [k];
    if order != [] { InsertByRows(order[..|order| - 1], k, cells, cells'); }
  }

  lemma {:induction false} SortByRows(order: seq<Key>, cells: map<Key, Cell>, cells': map<Key, Cell>)
    requires SameRows(order, cells, cells')
    ensures Listed(cells, order) && Listed(cells', order) && SortTargets(order, cells) == SortTargets(order, cells')
  {
    if order != [] {
      var front, last := order[..|order| - 1], order[|order| - 1];
      SortByRows(front, cells, cells');
      var r := SortTargets(front, cells);
      forall x <- r ensures x in front { assert x in multiset(r); assert x in multiset(front); }
      InsertByRows(r, last, cells, cells');
    }
  }

  lemma SettledRows(order: seq<Key>, cells: map<Key, Cell>)
    requires Listed(cells, order)
    ensures SameRows(order, Settled(Rows(cells)), cells)
  {
  }

  lemma CreateInSteps(s: State, target: Target)
    requires Formed(s)
    ensures CreateOutcome(s, target.name) != Committed ==> CreateTarget(s, target) == s
    ensures CreateOutcome(s, target.name) == Committed ==>
      var cells := s.cells[Normalize(target.name) := NewCell(target)];
      && Listed(cells, s.order + [Normalize(target.name)])
      && var t := s.(cells := cells, order := SortTargets(s.order + [Normalize(target.name)], cells));
      Formed(t) && CreateTarget(s, target) == Broadcast(t)
  {
  }

  lemma TablesRenamed(cells: map<Key, Cell>, k: Key, newKey: Key, target: Target)
    requires k in cells
    ensures var after := CellsRenamed(cells, k, newKey, target);
      && Rows(after) == (if newKey == k then Rows(cells) else Rows(cells) - {k})[newKey := target]
      && Jobs(after) == (if newKey == k then Jobs(cells) else (Jobs(cells) - {k})[newKey := cells[k].job])
      && Keepalives(after)
         == (if newKey == k then Keepalives(cells) else (Keepalives(cells) - {k})[newKey := cells[k].keepalive])
      && Arbiters(after)
         == (if newKey == k then Arbiters(cells) else (Arbiters(cells) - {k})[newKey := cells[k].arbiter])
  {
  }

  lemma UpdateInSteps(s: State, id: int, k: Key, target: Target)
    requires Formed(s) && NoRepeats(s.order) && UpdateOutcome(s, id, target.name) == Committed
    requires KeyOf(s.cells, s.order, id) == Some(k)
    ensures k in s.cells && k in s.order
    ensures var newKey := Normalize(target.name);
      var cells, order := CellsRenamed(s.cells, k, newKey, target), OrderRenamed(s.order, k, newKey);
      && Listed(cells, order)
      && var t := s.(cells := cells, order := SortTargets(order, cells));
      Formed(t) && JobRegistry.UpdateTarget(s, id, target) == Broadcast(t)
  {
    RenamedIsListed(s.cells, s.order, k, Normalize(target.name), target);
  }

  lemma TablesWithout(cells: map<Key, Cell>, k: Key)
    ensures Rows(cells - {k}) == Rows(cells) - {k} && Jobs(cells - {k}) == Jobs(cells) - {k}
    ensures Keepalives(cells - {k}) == Keepalives(cells) - {k} && Arbiters(cells - {k}) == Arbiters(cells) - {k}
  {
  }

  lemma DeleteInSteps(s: State, id: int, k: Key)
    requires Formed(s) && NoRepeats(s.order) && DeleteOutcome(s, id) == Committed
    requires KeyOf(s.cells, s.order, id) == Some(k)
    ensures k in s.order
    ensures var t := s.(cells := s.cells - {k}, order := Without(s.order, k));
      Formed(t) && JobRegistry.DeleteTarget(s, id) == Broadcast(t)
  {
    WithoutIsListed(s.cells, s.order, k);
  }

  lemma RowsFurther(rows: seq<Target>, n: nat)
    requires n < |rows|
    ensures CellsFor(rows[..n + 1]) == CellsFor(rows[..n])[Normalize(rows[n].name) := NewCell(rows[n])]
    ensures OrderFor(rows[..n + 1]) == OrderFor(rows[..n]) + [Normalize(rows[n].name)]
  {
    assert rows[..n + 1][..n] == rows[..n];
    hide Normalize;
  }
}
