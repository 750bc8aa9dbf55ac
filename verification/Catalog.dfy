/** The target handlers: the job manager's registry and the store's table are changed together. */
module TargetCatalog {
  import opened Text
  import opened Targets
  import opened Streams
  import opened Configuration
  import opened ConfigStore
  import opened JobState
  import opened JobSteps
  import opened JobRegistry
  import opened JobApi
  import opened JobInvariant
  import opened JobRegistryKeeps
  import opened JobRuns
  import opened JobSafety
  import opened JobTables
  import opened JobManager
  import opened ManagerRuns

  // ---------------------------------------------------------------- the two copies

  // The manager has the targets the table has, with the same contents.
  ghost predicate Agree(cells: map<Key, Cell>, rows: map<int, Row>) {
    && (forall k <- cells :: cells[k].target.id in rows && rows[cells[k].target.id].target == cells[k].target)
    && (forall id <- rows :: exists k <- cells :: cells[k].target.id == id)
  }

  function TargetsInOrder(s: State): seq<Target>
    requires Listed(s.cells, s.order)
  {
    seq(|s.order|, n requires 0 <= n < |s.order| => s.cells[s.order[n]].target)
  }

  lemma TargetsAreListed(s: State, rows: map<int, Row>)
    requires Registered(s.cells, s.order) && Agree(s.cells, rows)
    ensures IsListing(TargetsInOrder(s), rows)
  {
    hide Normalize;
    var ts := TargetsInOrder(s);
    forall id <- rows ensures rows[id].target in ts {
      var k :| k in s.cells && s.cells[k].target.id == id;
      var n :| 0 <= n < |s.order| && s.order[n] == k;
      assert ts[n] == s.cells[k].target;
    }
  }

  // Then the manager's listing is a listing of the table, so it is the store's.
  lemma AgreedOrder(s: State, rows: map<int, Row>, ts: seq<Target>)
    requires Registered(s.cells, s.order) && Agree(s.cells, rows) && IsListing(ts, rows)
    ensures TargetsInOrder(s) == ts
  {
    TargetsAreListed(s, rows);
    hide Registered, Agree, IsListing, TargetsInOrder;
    ListingIsUnique(TargetsInOrder(s), ts, rows);
  }

  // Every row has its own id and a valid name.
  ghost predicate NamedRows(rows: map<int, Row>) {
    forall i <- rows :: rows[i].target.id == i && NameOK(rows[i].target.name)
  }

  // The manager's lower-case check: a name it has no other key for has no namesake in the table.
  lemma FreeKeyIsFreeName(cells: map<Key, Cell>, rows: map<int, Row>, name: string, id: int)
    requires Agree(cells, rows) && NamedRows(rows) && NameOK(name)
    requires forall k <- cells :: k == Normalize(cells[k].target.name)
    requires Normalize(name) in cells ==> cells[Normalize(name)].target.id == id
    ensures !LowerConflict(rows, name, id)
  {
    KeyOfValidName(name);
    forall other <- rows | other != id ensures ToLower(rows[other].target.name) != ToLower(name) {
      KeyOfValidName(rows[other].target.name);
      var k :| k in cells && cells[k].target.id == other;
    }
  }

  // ---------------------------------------------------------------- what the commits do to the agreement

  lemma CreateAgrees(cells: map<Key, Cell>, rows: map<int, Row>, k: Key, created: Target)
    requires Agree(cells, rows) && k !in cells && created.id !in rows
    ensures Agree(cells[k := NewCell(created)], rows[created.id := Row(created, 1)])
  {
    var after, afterRows := cells[k := NewCell(created)], rows[created.id := Row(created, 1)];
    forall id <- afterRows ensures exists l <- after :: after[l].target.id == id {
      if id == created.id { assert after[k].target.id == id; }
      else { var l :| l in cells && cells[l].target.id == id; assert after[l].target.id == id; }
    }
  }

  lemma UpdateAgrees(cells: map<Key, Cell>, rows: map<int, Row>, k: Key, newKey: Key, updated: Target, row: Row)
    requires Agree(cells, rows) && k in cells && (newKey == k || newKey !in cells)
    requires cells[k].target.id == updated.id && row.target == updated
    requires forall i, j | i in cells && j in cells :: cells[i].target.id == cells[j].target.id ==> i == j
    ensures Agree(CellsRenamed(cells, k, newKey, updated), rows[updated.id := row])
  {
    var after, afterRows := CellsRenamed(cells, k, newKey, updated), rows[updated.id := row];
    forall id <- afterRows ensures exists l <- after :: after[l].target.id == id {
      if id == updated.id { assert after[newKey].target.id == id; }
      else { var l :| l in cells && cells[l].target.id == id; assert l != k; assert after[l].target.id == id; }
    }
  }

  lemma DeleteAgrees(cells: map<Key, Cell>, rows: map<int, Row>, k: Key)
    requires Agree(cells, rows) && k in cells
    requires forall i, j | i in cells && j in cells :: cells[i].target.id == cells[j].target.id ==> i == j
    ensures Agree(cells - {k}, rows - {cells[k].target.id})
  {
    var after, afterRows := cells - {k}, rows - {cells[k].target.id};
    forall id <- afterRows ensures exists l <- after :: after[l].target.id == id {
      var l :| l in cells && cells[l].target.id == id;
      assert after[l].target.id == id;
    }
  }

  // ---------------------------------------------------------------- the handlers

  // A create or update request; sortOrder is missing if the client did not send one.
  datatype Request = Request(
    sortOrder: Option<int>, name: string, baseURL: string, apiKey: string, model: string, wireAPI: string,
    overrides: seq<string>)

  // targetFromRequest
  function FromRequest(r: Request): Target {
    Target(0, if r.sortOrder.Some? then r.sortOrder.value else -1, r.name, r.baseURL, r.apiKey, r.model, r.wireAPI,
           CleanStrings(r.overrides))
  }

  method TargetFromRequest(r: Request) returns (t: Target)
    ensures t == FromRequest(r)
  {
    var sortOrder := -1;
    if r.sortOrder.Some? { sortOrder := r.sortOrder.value; }
    var overrides := CleanEach(r.overrides);
    t := Target(0, sortOrder, r.name, r.baseURL, r.apiKey, r.model, r.wireAPI, overrides);
  }

  // The target an update asks for: what the request leaves out stays.
  function Requested(r: Request, current: Target): Target {
    FromRequest(r).(
      id := current.id, sortOrder := if r.sortOrder.None? then current.sortOrder else r.sortOrder.value,
      apiKey := if TrimSpace(r.apiKey) == "" then current.apiKey else TrimSpace(r.apiKey))
  }

  function NewKey(r: Request): Option<string> {
    if TrimSpace(r.apiKey) == "" then None else Some(TrimSpace(r.apiKey))
  }

  // The section a codex request asks for, and a web request.
  function RequestedCodex(r: CodexConfig): CodexConfig {
    r.(prompts := CleanStrings(r.prompts), promptsPersisted := true, overrides := CleanStrings(r.overrides))
  }

  function RequestedWeb(r: WebConfig): WebConfig {
    r.(trustedProxies := CleanStrings(r.trustedProxies))
  }

  // The target says what the request asks for, each field cleaned.
  predicate AsAsked(r: Request, t: Target) {
    && t.name == TrimSpace(r.name) && t.baseURL == TrimSlashes(TrimSpace(r.baseURL)) && t.model == TrimSpace(r.model)
    && t.wireAPI == "responses" && t.overrides == CleanStrings(r.overrides)
  }

  // After an update: what the request leaves out is as it was.
  predicate UpdatedAsAsked(r: Request, before: Target, t: Target) {
    && AsAsked(r, t) && t.id == before.id
    && t.apiKey == (if TrimSpace(r.apiKey) != "" then TrimSpace(r.apiKey) else before.apiKey)
    && t.sortOrder == (if r.sortOrder.Some? then r.sortOrder.value else before.sortOrder)
  }

  // A new target: without a place of its own it comes last.
  ghost predicate CreatedAsAsked(r: Request, before: Database, t: Target) {
    && AsAsked(r, t) && t.id == before.lastID + 1 && t.apiKey == TrimSpace(r.apiKey)
    && (r.sortOrder.Some? ==> t.sortOrder == r.sortOrder.value)
    && (r.sortOrder.None? ==>
      && (before.rows == map[] ==> t.sortOrder == 0)
      && forall id <- before.rows :: before.rows[id].target.sortOrder < t.sortOrder)
  }

  // The manager has this target, and no other with its id.
  ghost predicate ManagerHas(s: State, t: Target) {
    && (exists k <- s.cells :: s.cells[k].target == t)
    && forall k <- s.cells :: s.cells[k].target.id == t.id ==> s.cells[k].target == t
  }

  // The section says what a codex request asks for, each field cleaned.
  predicate CodexAsAsked(r: CodexConfig, c: CodexConfig) {
    && c.binary == TrimSpace(r.binary) && c.promptsFile == TrimSpace(r.promptsFile)
    && c.prompts == CleanStrings(r.prompts) && c.promptsPersisted && c.requestTimeout == r.requestTimeout
    && c.retryMin == r.retryMin && c.retryMax == r.retryMax
    && c.keepaliveMin == r.keepaliveMin && c.keepaliveMax == r.keepaliveMax && c.maxParallel == r.maxParallel
    && c.successMessage == TrimSpace(r.successMessage) && c.reasoningEffort == TrimSpace(r.reasoningEffort)
    && c.overrides == CleanStrings(r.overrides)
  }

  lemma CleanedIsAsAsked(r: CodexConfig)
    ensures CodexAsAsked(r, CleanCodex(RequestedCodex(r)))
  {
    hide TrimSpace, CleanStrings;
  }

  lemma CleanedWebIsAsAsked(r: WebConfig)
    ensures CleanWeb(RequestedWeb(r))
      == WebConfig(TrimSpace(r.listenAddress), r.cookieSecure, CleanStrings(r.trustedProxies), r.activityLimit)
  {
    hide TrimSpace, CleanStrings;
  }

  lemma RowsKnowTheirIDs(db: Database, id: int)
    requires Kept(db) && id in db.rows
    ensures db.rows[id].target.id == id
  {
  }

  lemma ReplacedIsAsAsked(db: Database, id: int, r: Request)
    requires Kept(db) && id in db.rows
    requires var target := Requested(r, db.rows[id].target);
      target.sortOrder >= 0 && TargetOK(Replaced(db, id, target, NewKey(r)))
    ensures var target := Requested(r, db.rows[id].target);
      UpdatedAsAsked(r, db.rows[id].target, Replaced(db, id, target, NewKey(r)))
  {
    RowsKnowTheirIDs(db, id);
    TrimIdempotent(r.apiKey);
    hide Kept, TrimSpace, TrimSlashes, CleanStrings, NameOK, OverridesOK;
  }

  lemma InsertedIsAsAsked(db: Database, r: Request, created: Target, after: Database)
    requires Kept(db) && Inserted(db, FromRequest(r), created, after) && TargetOK(Normalized(FromRequest(r)))
    requires r.sortOrder.Some? ==> r.sortOrder.value >= 0
    ensures CreatedAsAsked(r, db, created)
  {
    hide Kept, TrimSpace, TrimSlashes, CleanStrings, NameOK, OverridesOK;
  }

  // Where the copies agree, what the table has under an id the manager has.
  lemma AgreedTarget(s: Sound, rows: map<int, Row>, id: int)
    requires Agree(s.cells, rows) && id in rows && rows[id].target.id == id
    ensures ManagerHas(s, rows[id].target)
  {
    hide Core, Observed;
    var k :| k in s.cells && s.cells[k].target.id == id;
    assert s.cells[k].target == rows[id].target;
  }

  datatype Reply = Saved | Malformed | Absent | Occupied | Taken

  lemma KeptIsNamed(db: Database)
    requires Kept(db)
    ensures NamedRows(db.rows) && forall id <- db.rows :: id <= db.lastID
  {
  }

  lemma SoundRegistry(s: Sound)
    ensures Formed(s) && NoRepeats(s.order) && Registered(s.cells, s.order)
    ensures forall k <- s.cells :: k in s.order && k == Normalize(s.cells[k].target.name)
    ensures forall i, j | i in s.cells && j in s.cells :: s.cells[i].target.id == s.cells[j].target.id ==> i == j
  {
    CoreListing(s);
    CoreIsRegistered(s);
    hide Core, Observed, Normalize;
  }

  // Trimming a name does not change the key it is filed under.
  lemma TrimmedKey(name: string)
    ensures Normalize(TrimSpace(name)) == Normalize(name)
  {
    TrimIdempotent(name);
    hide TrimSpace;
  }

  // Creating: what the manager's first check means for the store, and its second check for the manager.
  lemma CreateIsSafe(s: Sound, db: Database, name: string)
    requires Kept(db) && Agree(s.cells, db.rows) && Normalize(name) !in s.cells && NameOK(TrimSpace(name))
    ensures !LowerConflict(db.rows, TrimSpace(name), db.lastID + 1)
    ensures Normalize(TrimSpace(name)) == Normalize(name)
  {
    hide IsSound, Kept, NameOK, LowerConflict, Normalize, NamedRows, Registered;
    TrimmedKey(name);
    KeptIsNamed(db);
    SoundRegistry(s);
    FreeKeyIsFreeName(s.cells, db.rows, TrimSpace(name), db.lastID + 1);
  }

  lemma CreateIsApplied(s: Sound, target: Target)
    requires FreshID(s, target)
    ensures Formed(s) && Apply(s, Create(target)) == CreateTarget(s, target)
  {
    hide Core, Observed, CreateTarget, NoRepeats, FreshID, Formed;
    CoreListing(s);
    assert Possible(s, Create(target));
  }

  lemma CreateApplies(s: Sound, db: Database, created: Target)
    requires Kept(db) && Agree(s.cells, db.rows) && created.id == db.lastID + 1
    requires Normalize(created.name) !in s.cells
    ensures Formed(s) && CreateOutcome(s, created.name) == Committed
    ensures Apply(s, Create(created)) == CreateTarget(s, created)
    ensures Agree(CreateTarget(s, created).cells, db.rows[created.id := Row(created, 1)])
  {
    KeptIsNamed(db);
    assert FreshID(s, created);
    hide IsSound, Kept, Normalize, SortTargets, JobState.Snapshot, Agree, Apply, CreateTarget, Formed, FreshID,
         Listed;
    CreateIsApplied(s, created);
    CreateInSteps(s, created);
    CreateAgrees(s.cells, db.rows, Normalize(created.name), created);
  }

  // Updating: the manager's checks leave the store nothing to object to, and the commit keeps the copies equal.
  lemma UpdateIsSafe(s: Sound, db: Database, id: int, name: string)
    requires Kept(db) && Agree(s.cells, db.rows) && Formed(s) && UpdateOutcome(s, id, name) == Committed
    requires NameOK(TrimSpace(name))
    ensures id in db.rows && !LowerConflict(db.rows, TrimSpace(name), id)
    ensures Normalize(TrimSpace(name)) == Normalize(name)
  {
    hide IsSound, Kept, NameOK, LowerConflict, Normalize, Busy, NamedRows, Registered, NoRepeats;
    TrimmedKey(name);
    KeptIsNamed(db);
    SoundRegistry(s);
    FreeKeyIsFreeName(s.cells, db.rows, TrimSpace(name), id);
  }

  lemma UpdateIsApplied(s: Sound, id: int, target: Target)
    requires target.id == id
    ensures Formed(s) && NoRepeats(s.order) && Apply(s, Update(id, target)) == UpdateTarget(s, id, target)
  {
    hide Core, Observed, UpdateTarget, NoRepeats, Formed;
    CoreListing(s);
  }

  lemma DeleteIsApplied(s: Sound, id: int)
    ensures Formed(s) && NoRepeats(s.order) && Apply(s, Delete(id)) == DeleteTarget(s, id)
  {
    hide Core, Observed, DeleteTarget, NoRepeats, Formed;
    CoreListing(s);
  }

  lemma UpdateApplies(s: Sound, db: Database, id: int, updated: Target, row: Row)
    requires Kept(db) && Agree(s.cells, db.rows) && Formed(s) && NoRepeats(s.order)
    requires UpdateOutcome(s, id, updated.name) == Committed && updated.id == id && row.target == updated
    ensures Apply(s, Update(id, updated)) == UpdateTarget(s, id, updated)
    ensures Agree(UpdateTarget(s, id, updated).cells, db.rows[id := row])
  {
    hide IsSound, Kept, Normalize, SortTargets, JobState.Snapshot, Busy, CellsRenamed, OrderRenamed, Agree, Apply,
         UpdateTarget, Formed, NoRepeats;
    SoundRegistry(s);
    UpdateIsApplied(s, id, updated);
    var k, newKey := KeyOf(s.cells, s.order, id).value, Normalize(updated.name);
    UpdateInSteps(s, id, k, updated);
    UpdateAgrees(s.cells, db.rows, k, newKey, updated, row);
  }

  lemma DeleteApplies(s: Sound, db: Database, id: int)
    requires Kept(db) && Agree(s.cells, db.rows) && Formed(s) && NoRepeats(s.order) && DeleteOutcome(s, id) == Committed
    ensures id in db.rows && Apply(s, Delete(id)) == DeleteTarget(s, id)
    ensures Agree(DeleteTarget(s, id).cells, db.rows - {id})
  {
    var k := KeyOf(s.cells, s.order, id).value;
    assert s.cells[k].target.id in db.rows;
    hide IsSound, Kept, JobState.Snapshot, Busy, Without, Agree, Apply, DeleteTarget, Formed, NoRepeats, Normalize;
    SoundRegistry(s);
    DeleteIsApplied(s, id);
    DeleteInSteps(s, id, k);
    DeleteAgrees(s.cells, db.rows, k);
  }

  // ---------------------------------------------------------------- what happens between two requests

  predicate Commits(step: Step) {
    step.Create? || step.Update? || step.Delete?
  }

  predicate Writes(step: Step) {
    Commits(step) || step.Settings?
  }

  ghost predicate SameTargets(s: State, t: State) {
    t.cells.Keys == s.cells.Keys && t.order == s.order && forall k <- s.cells :: t.cells[k].target == s.cells[k].target
  }

  lemma SectionKeepsTarget(c: Cell, w: Worker, i: nat, pool: Pool, env: Env, choice: Choice)
    requires Enabled(c, w, pool, env, choice)
    ensures Work(c, w, i, pool, env, choice).cell.target == c.target
  {
  }

  lemma GoKeepsTargets(s: State, i: nat, choice: Choice)
    requires Formed(s) && NoRepeats(s.order) && Possible(s, Go(i, choice))
    ensures SameTargets(s, Next(s, Go(i, choice)))
  {
    hide Work, JobState.Snapshot, NoRepeats, Enabled;
    SectionKeepsTarget(s.cells[s.workers[i].key], s.workers[i], i, s.pool, s.env, choice);
  }

  lemma StopKeepsTargets(s: State, step: Step)
    requires Formed(s) && NoRepeats(s.order) && (step.Prepare? || step.StopKeys? || step.StopID?)
    ensures SameTargets(s, Next(s, step))
  {
    hide JobState.Snapshot, NoRepeats, JobApi.StopAll, JobApi.StopQueue, JobApi.StopKeepalive, JobApi.StopAdhoc,
         JobApi.StopTarget, Busy, AnyStoppable;
    forall k <- s.cells ensures Continues(s, Next(s, step), k) {
      if step.Prepare? { PrepareContinues(s, step.key, step.desired, k); } else { StopStepContinues(s, step, k); }
    }
  }

  lemma StartKeepsTargets(s: State, step: Step)
    requires Formed(s) && NoRepeats(s.order) && Possible(s, step)
    requires step.Join? || step.StartQueueRun? || step.StartKeepaliveRun? || step.Reserve? || step.Settings?
    ensures SameTargets(s, Next(s, step))
  {
    hide JobState.Snapshot, NoRepeats, WithSubscriber, Busy, KeyOf;
  }

  // Nothing but the three commits changes what the targets are.
  lemma JobsKeepTargets(s: Sound, step: Step)
    requires !Commits(step)
    ensures SameTargets(s, Apply(s, step))
  {
    hide Core, Observed, JobState.Snapshot, NoRepeats, FreshID, AreSamples, Enabled, Formed;
    CoreListing(s);
    if Possible(s, step) {
      if step.Go? { GoKeepsTargets(s, step.i, step.choice); hide Next; }
      else if step.Prepare? || step.StopKeys? || step.StopID? { StopKeepsTargets(s, step); hide Next; }
      else if step.Join? || step.StartQueueRun? || step.StartKeepaliveRun? || step.Reserve? || step.Settings? {
        StartKeepsTargets(s, step);
        hide Next;
      }
    }
  }

  lemma SameTargetsAgree(s: State, t: State, rows: map<int, Row>)
    requires Agree(s.cells, rows) && SameTargets(s, t)
    ensures Agree(t.cells, rows)
  {
    forall id <- rows ensures exists k <- t.cells :: t.cells[k].target.id == id {
      var k :| k in s.cells && s.cells[k].target.id == id;
      assert t.cells[k].target.id == id;
    }
  }

  // So the agreement the handlers leave behind is there for the next handler, whatever the jobs do in between.
  lemma {:induction false} AgreementLasts(s: Sound, steps: seq<Step>, rows: map<int, Row>)
    requires Agree(s.cells, rows) && forall step <- steps :: !Commits(step)
    ensures Agree(Run(s, steps).cells, rows)
  {
    hide IsSound, Apply, Commits;
    if steps != [] {
      var front, last := steps[..|steps| - 1], steps[|steps| - 1];
      assert last in steps && forall step <- front :: step in steps;
      AgreementLasts(s, front, rows);
      var t: Sound := Run(s, front);
      JobsKeepTargets(t, last);
      SameTargetsAgree(t, Apply(t, last), rows);
    }
  }

  // The settings the codex section is about.
  predicate SameSettings(env: Env, env': Env) {
    && env'.keepaliveMin == env.keepaliveMin && env'.keepaliveMax == env.keepaliveMax
    && env'.maxParallel == env.maxParallel && env'.successMessage == env.successMessage
  }

  // Nothing but UpdateSettings changes them.
  lemma OnlySettingsChange(s: Sound, step: Step)
    requires !step.Settings?
    ensures SameSettings(s.env, Apply(s, step).env)
  {
    hide Core, Observed, JobState.Snapshot, Publish, NoRepeats, FreshID, AreSamples, Enabled, Work, Formed, WellFormed,
         KeyOf, SortTargets, StopAll, Renamed, Without, Normalize, Busy, Listed, WithSubscriber;
    CoreListing(s);
    if step.StopKeys? { StopAllLeavesPool(s, step.keys); }
  }

  lemma {:induction false} SettingsLast(s: Sound, steps: seq<Step>)
    requires forall step <- steps :: !step.Settings?
    ensures SameSettings(s.env, Run(s, steps).env)
  {
    hide IsSound, Apply;
    if steps != [] {
      var front, last := steps[..|steps| - 1], steps[|steps| - 1];
      assert last in steps && forall step <- front :: step in steps;
      SettingsLast(s, front);
      OnlySettingsChange(Run(s, front), last);
    }
  }

  // Writes to the configuration are made one at a time: nobody creates, updates or deletes a target meanwhile, or
  // changes the settings.
  predicate NoWrites(calls: seq<Call>) {
    forall call <- calls :: call.Does? ==> !Writes(call.step)
  }

  lemma {:induction false} NoWriteSteps(s: Sound, calls: seq<Call>)
    requires NoWrites(calls)
    ensures forall step <- StepsOf(s, calls) :: !Writes(step)
  {
    hide IsSound, Apply, Run;
    if calls != [] {
      var front := calls[..|calls| - 1];
      assert calls[|calls| - 1] in calls && forall call <- front :: call in calls;
      NoWriteSteps(s, front);
    }
  }

  // Between the stop and the commit the agreement lasts, and so do the settings.
  lemma InterludeAgrees(s: Sound, id: int, others: seq<Call>, rows: map<int, Row>)
    requires Agree(s.cells, rows) && NoWrites(others)
    ensures var u := Apply(s, StopID(id));
      && Agree(Run(u, StepsOf(u, others)).cells, rows)
      && SameSettings(s.env, Run(u, StepsOf(u, others)).env)
  {
    hide IsSound, Apply, Run, StepsOf, Agree;
    var u: Sound := Apply(s, StopID(id));
    JobsKeepTargets(s, StopID(id));
    SameTargetsAgree(s, u, rows);
    NoWriteSteps(u, others);
    AgreementLasts(u, StepsOf(u, others), rows);
    OnlySettingsChange(s, StopID(id));
    SettingsLast(u, StepsOf(u, others));
  }

  lemma StopIsApplied(s: Sound, id: int)
    ensures Formed(s) && Counts(s) && Apply(s, StopID(id)) == JobApi.StopByID(s, id)
  {
    hide Core, Observed, JobApi.StopByID, NoRepeats, Formed, Counts;
    CoreListing(s);
    SoundCounts(s);
  }

  lemma RequestIsKept(r: Request)
    ensures FromRequest(r).name == r.name && FromRequest(r).apiKey == r.apiKey
    ensures Normalized(FromRequest(r)).sortOrder == (if r.sortOrder.Some? then r.sortOrder.value else -1)
    ensures Normalized(FromRequest(r)).name == TrimSpace(r.name)
  {
  }

  lemma NormalizedName(t: Target)
    ensures Normalized(t).name == TrimSpace(t.name)
    ensures TargetOK(Normalized(t)) ==> NameOK(TrimSpace(t.name))
  {
  }

  lemma ValidRequest(t: Target)
    requires TargetOK(Normalized(t))
    ensures NameOK(TrimSpace(t.name))
  {
  }

  // ---------------------------------------------------------------- the start

  // Rows that are loaded together have different keys.
  lemma DifferentKeys(db: Database, i: int, j: int)
    requires Kept(db) && i in db.rows && j in db.rows
    ensures Normalize(db.rows[i].target.name) == Normalize(db.rows[j].target.name) ==> i == j
  {
    KeptIsNamed(db);
    hide NameOK, Normalize, ToLower;
    KeyOfValidName(db.rows[i].target.name);
    KeyOfValidName(db.rows[j].target.name);
  }

  // What Load returns of a database New can start from, and the two copies agree from then on.
  lemma LoadedIsBootable(db: Database, ts: seq<Target>)
    requires Kept(db) && IsListing(ts, db.rows)
    ensures Bootable(ts) && Agree(CellsFor(ts), db.rows)
  {
    KeptIsNamed(db);
    hide Kept, NameOK, Normalize, ToLower;
    forall i, j | 0 <= i < j < |ts| ensures Normalize(ts[i].name) != Normalize(ts[j].name) && ts[i].id != ts[j].id {
      assert ts[i] in ts && ts[j] in ts;
      DifferentKeys(db, ts[i].id, ts[j].id);
    }
    CellsForHolds(ts);
    forall k <- CellsFor(ts)
      ensures var t := CellsFor(ts)[k].target; t.id in db.rows && db.rows[t.id].target == t
    {
      var n :| FiledAt(ts, n, k);
      assert ts[n] in ts;
    }
    forall id <- db.rows ensures exists k <- CellsFor(ts) :: CellsFor(ts)[k].target.id == id {
      var n :| 0 <= n < |ts| && ts[n] == db.rows[id].target;
      assert FiledAt(ts, n, Normalize(ts[n].name));
      assert CellsFor(ts)[Normalize(ts[n].name)].target.id == id;
    }
  }

  const SECOND := 1_000_000_000

  // The manager works by the codex section that is stored.
  predicate Applied(env: Env, c: CodexConfig) {
    && env.keepaliveMin == c.keepaliveMin * SECOND && env.keepaliveMax == c.keepaliveMax * SECOND
    && env.maxParallel == c.maxParallel && env.successMessage == c.successMessage
  }

  // The manager a process starts with.
  function Booted(config: Config, now: int, rootDone: bool): State {
    var c := config.codex;
    NewManager(
      config.targets, Env(c.maxParallel, c.keepaliveMin * SECOND, c.keepaliveMax * SECOND, 0, false, now, rootDone,
                          c.successMessage))
  }

  lemma ListingIsEmpty(ts: seq<Target>, rows: map<int, Row>)
    requires IsListing(ts, rows)
    ensures ts == [] <==> rows == map[]
  {
    if ts != [] { assert ts[0] in ts; }
    if rows.Keys == {} { assert rows == map[]; }
    else {
      NotEmpty(rows.Keys);
      var id :| id in rows.Keys;
      assert rows[id].target in ts;
    }
  }

  lemma LoadedStarts(db: Database, loaded: ConfigStore.Snapshot, now: int, rootDone: bool)
    requires Kept(db) && Reads(loaded, db)
    ensures var s := Booted(loaded.config, now, rootDone);
      && Bootable(loaded.config.targets) && IsSound(s) && Agree(s.cells, db.rows)
      && Applied(s.env, db.codex.value)
  {
    hide Kept, IsSound, Agree, Bootable, CellsFor, OrderFor;
    LoadedIsBootable(db, loaded.config.targets);
    var c := loaded.config.codex;
    NewIsSound(loaded.config.targets,
               Env(c.maxParallel, c.keepaliveMin * SECOND, c.keepaliveMax * SECOND, 0, false, now, rootDone,
                   c.successMessage));
  }

  // ---------------------------------------------------------------- the settings

  // What applying the section does to the manager.
  function SettingsOf(c: CodexConfig, samples: map<Key, int>): Step {
    Settings(c.keepaliveMin * SECOND, c.keepaliveMax * SECOND, c.maxParallel, c.successMessage, samples)
  }

  lemma SettingsAreApplied(s: Sound, c: CodexConfig, samples: map<Key, int>)
    requires CodexOK(c) && AreSamples(s.cells, samples, c.keepaliveMin * SECOND, c.keepaliveMax * SECOND)
    ensures Formed(s)
    ensures var t := Apply(s, SettingsOf(c, samples));
      && Applied(t.env, c) && SameTargets(s, t)
      && t == JobApi.UpdateSettings(
           s, c.keepaliveMin * SECOND, c.keepaliveMax * SECOND, c.maxParallel, c.successMessage, samples)
  {
    hide Core, Observed, AreSamples, Formed, NoRepeats, JobState.Snapshot, Publish, SameTargets;
    CoreListing(s);
    JobsKeepTargets(s, SettingsOf(c, samples));
  }

  // What the handler's check accepts the store's accepts.
  lemma CleanedIsValid(r: CodexConfig)
    requires ValidateCodex(RequestedCodex(r))
    ensures ValidateCodex(CleanCodex(RequestedCodex(r)))
    ensures CodexOK(CleanCodex(RequestedCodex(r)))
    ensures CleanCodex(RequestedCodex(r)).keepaliveMin == r.keepaliveMin
    ensures CleanCodex(RequestedCodex(r)).keepaliveMax == r.keepaliveMax
  {
    TrimIdempotent(r.binary);
    TrimIdempotent(r.promptsFile);
    TrimIdempotent(r.successMessage);
    TrimIdempotent(r.reasoningEffort);
    hide TrimSpace, OpenILinkOK, TelegramOK, WebOK, TargetOK, NamesDiffer, OverridesOK, ToLower;
  }

  lemma CleanedWebIsValid(r: WebConfig)
    requires ValidateWeb(RequestedWeb(r))
    ensures ValidateWeb(CleanWeb(RequestedWeb(r)))
  {
    TrimIdempotent(r.listenAddress);
    hide TrimSpace, OpenILinkOK, TelegramOK, CodexOK, TargetOK, NamesDiffer;
  }

  // What passes the handler's check passes the store's.
  lemma ReplacementIsOK(db: Database, id: int, target: Target, apiKey: Option<string>)
    requires Kept(db) && id in db.rows && TargetOK(Normalized(target))
    ensures TargetOK(Replaced(db, id, target, apiKey))
  {
    assert TargetOK(db.rows[id].target);
    hide NameOK, OverridesOK, RowNamesDiffer, RowsKeyed, OpenILinkOK, TelegramOK, CodexOK, WebOK;
  }

  // The manager finds a target by its id exactly if the table has the row, and finds the row's contents.
  lemma AgreedKey(s: Sound, rows: map<int, Row>, id: int)
    requires Formed(s) && Agree(s.cells, rows)
    requires forall k <- s.cells :: k in s.order
    ensures KeyOf(s.cells, s.order, id).Some? <==> id in rows
    ensures KeyOf(s.cells, s.order, id).Some? ==> s.cells[KeyOf(s.cells, s.order, id).value].target == rows[id].target
  {
    hide Core, Observed;
    if id in rows { var k :| k in s.cells && s.cells[k].target.id == id; }
  }

  lemma CreatedIsThere(before: Database, r: Request, created: Target, db: Database, t: Sound)
    requires Kept(before) && Inserted(before, FromRequest(r), created, db) && TargetOK(Normalized(FromRequest(r)))
    requires r.sortOrder.Some? ==> r.sortOrder.value >= 0
    requires Agree(t.cells, db.rows)
    ensures before.lastID + 1 in db.rows && CreatedAsAsked(r, before, db.rows[before.lastID + 1].target)
    ensures ManagerHas(t, db.rows[before.lastID + 1].target)
  {
    hide Kept, Agree, IsSound, CreatedAsAsked, ManagerHas, TargetOK, Normalized, FromRequest;
    InsertedIsAsAsked(before, r, created, db);
    AgreedTarget(t, db.rows, before.lastID + 1);
  }

  lemma UpdatedIsThere(before: Database, id: int, r: Request, db: Database, t: Sound)
    requires Kept(before) && id in before.rows && Requested(r, before.rows[id].target).sortOrder >= 0
    requires var updated := Replaced(before, id, Requested(r, before.rows[id].target), NewKey(r));
      TargetOK(updated) && RowReplaced(before, id, updated, db)
    requires Agree(t.cells, db.rows)
    ensures id in db.rows && UpdatedAsAsked(r, before.rows[id].target, db.rows[id].target)
    ensures ManagerHas(t, db.rows[id].target)
  {
    RowsKnowTheirIDs(before, id);
    hide Kept, Agree, IsSound, UpdatedAsAsked, ManagerHas, TargetOK;
    ReplacedIsAsAsked(before, id, r);
    AgreedTarget(t, db.rows, id);
  }

  // ---------------------------------------------------------------- the server

  class Server {
    const manager: Manager
    const store: Store
    var snapshot: Option<ConfigStore.Snapshot>

    // Between two requests: the manager is in a state of the protocol, what is stored can be loaded, the two copies of
    // the targets agree, the manager works by the stored settings, and clients are shown what is stored.
    ghost predicate InStep(s: Sound)
      reads this, manager, store
    {
      && manager.Shows(s) && Kept(store.db) && Agree(s.cells, store.db.rows) && Applied(s.env, store.db.codex.value)
      && (snapshot.Some? ==> Reads(snapshot.value, store.db))
    }

    // web.New, given what is stored and a manager that has it
    constructor (manager: Manager, store: Store, loaded: ConfigStore.Snapshot, ghost s: Sound)
      requires manager.Shows(s) && Kept(store.db) && Agree(s.cells, store.db.rows) && Reads(loaded, store.db)
      requires Applied(s.env, store.db.codex.value)
      ensures this.manager == manager && this.store == store && snapshot == Some(loaded) && InStep(s)
    {
      this.manager, this.store, snapshot := manager, store, Some(loaded);
    }

    // The persist closure of createTarget. After the manager's check, and the handler's, the store has nothing to
    // object to.
    method PersistCreate(target: Target, ghost s: Sound)
      returns (persisted: Option<Target>, stored: Option<ConfigStore.Snapshot>, ghost t: Sound)
      requires InStep(s) && CreateOutcome(s, target.name) == Committed && TargetOK(Normalized(target))
      modifies store
      ensures persisted.Some? && stored.Some? && Inserted(old(store.db), target, persisted.value, store.db)
      ensures Formed(s) && CreateOutcome(s, persisted.value.name) == Committed
      ensures t == Apply(s, Create(persisted.value)) && t == JobRegistry.CreateTarget(s, persisted.value)
      ensures Kept(store.db) && Agree(t.cells, store.db.rows) && Reads(stored.value, store.db)
      ensures Applied(t.env, store.db.codex.value)
    {
      hide Manager.Shows, Kept, Agree, Reads, IsSound, TargetOK, LowerConflict, NoCaseConflict, Apply, Formed,
           Normalize, TrimSpace, JobRegistry.CreateTarget;
      NormalizedName(target);
      CreateIsSafe(s, store.db, target.name);
      ConstraintIsWeaker(store.db.rows, TrimSpace(target.name), store.db.lastID + 1);
      t := s;
      var r := store.CreateTarget(target);
      match r
      case Stored(created, next) =>
        persisted, stored := Some(created), Some(next);
        CreateApplies(s, old(store.db), created);
        t := Apply(s, Create(created));
        OnlySettingsChange(s, Create(created));
      case Rejected(_) => persisted, stored := None, None;
    }

    // createTarget; `t` is the protocol's state afterwards
    method CreateTarget(request: Request, ghost s: Sound) returns (reply: Reply, ghost t: Sound)
      requires InStep(s)
      modifies this, manager, store
      ensures InStep(t)
      ensures reply != Saved ==> t == s && store.db == old(store.db) && snapshot == old(snapshot)
      ensures reply == Saved <==>
        && TrimSpace(request.apiKey) != "" && TargetOK(Normalized(FromRequest(request)))
        && (request.sortOrder.Some? ==> request.sortOrder.value >= 0)
        && CreateOutcome(s, request.name) == Committed
      ensures reply == Saved ==>
        exists created: Target :: Inserted(old(store.db), FromRequest(request), created, store.db)
          && t == Apply(s, Create(created))
      ensures reply == Saved ==>
        var id := old(store.db).lastID + 1;
        && id in store.db.rows && CreatedAsAsked(request, old(store.db), store.db.rows[id].target)
        && ManagerHas(t, store.db.rows[id].target)
    {
      hide Manager.Shows, Kept, Agree, Reads, IsSound, TargetOK, LowerConflict, NoCaseConflict, Apply, Formed,
           Normalize, FromRequest, TrimSpace, Normalized, Inserted, JobRegistry.CreateTarget;
      RequestIsKept(request);
      t := s;
      var target := TargetFromRequest(request);
      if TrimSpace(target.apiKey) == "" { return Malformed, t; }
      var validation := NormalizeTarget(target);
      if request.sortOrder.None? { validation := validation.(sortOrder := 0); }
      SortOrderIsFree(Normalized(target), validation);
      var ok := CheckTarget(validation);
      if !ok { return Malformed, t; }
      SoundRegistry(s);
      var persisted: Option<Target>, stored := None, snapshot;
      var taken := manager.HasTarget(Normalize(target.name), s);
      if !taken {
        persisted, stored, t := PersistCreate(target, s);
      }
      var outcome := manager.CreateTarget(target.name, persisted, s);
      if outcome != Some(Committed) { return if outcome.None? then Malformed else Taken, t; }
      CreatedIsThere(old(store.db), request, persisted.value, store.db, t);
      snapshot := stored;
      return Saved, t;
    }

    // updateTarget up to Manager.UpdateTarget: the row as it is to be, and the API key if there is a new one
    method PrepareUpdate(id: int, request: Request, ghost s: Sound)
      returns (reply: Reply, target: Target, apiKey: Option<string>)
      requires InStep(s)
      ensures reply == Saved || reply == Absent || reply == Malformed
      ensures reply == Absent <==> id !in store.db.rows
      ensures reply != Absent ==>
        && target == Requested(request, store.db.rows[id].target) && apiKey == NewKey(request)
        && (reply == Saved <==> TargetOK(Normalized(target)) && target.sortOrder >= 0)
      ensures reply == Saved ==> TargetOK(Replaced(store.db, id, target, apiKey))
    {
      hide Kept, IsSound, TargetOK, Normalize, Manager.Shows, Agree, Reads, Formed, NoRepeats, Trimmed;
      SoundRegistry(s);
      AgreedKey(s, store.db.rows, id);
      target := TargetFromRequest(request);
      target, apiKey := target.(id := id), None;
      var found := manager.TargetByID(id, s);
      if found.None? { return Absent, target, apiKey; }
      var current := found.value;
      if request.sortOrder.None? { target := target.(sortOrder := current.sortOrder); }
      target := target.(apiKey := current.apiKey);
      var trimmed := TrimSpace(request.apiKey);
      if trimmed != "" {
        apiKey := Some(trimmed);
        target := target.(apiKey := trimmed);
      }
      RowsKnowTheirIDs(store.db, id);
      var normalized := NormalizeTarget(target);
      var ok := CheckTarget(normalized);
      if !ok { return Malformed, target, apiKey; }
      ReplacementIsOK(store.db, id, target, apiKey);
      return Saved, target, apiKey;
    }

    // Manager.UpdateTarget with its persist closure, once the target's runs have been stopped and waited for: saved if
    // and only if the manager still allows it and the row is valid
    method CommitUpdate(id: int, target: Target, apiKey: Option<string>, ghost s: Sound)
      returns (reply: Reply, ghost t: Sound)
      requires InStep(s) && NameOK(TrimSpace(target.name))
      modifies this, manager, store
      ensures InStep(t)
      ensures reply != Saved ==> t == s && store.db == old(store.db) && snapshot == old(snapshot)
      ensures reply == Absent <==> id !in old(store.db).rows
      ensures reply == Saved <==>
        && Formed(s) && UpdateOutcome(s, id, target.name) == Committed && id in old(store.db).rows
        && TargetOK(Replaced(old(store.db), id, target, apiKey))
      ensures reply == Saved ==>
        var updated := Replaced(old(store.db), id, target, apiKey);
        RowReplaced(old(store.db), id, updated, store.db) && t == Apply(s, Update(id, updated))
    {
      hide Manager.Shows, Kept, Agree, Reads, IsSound, TargetOK, LowerConflict, NoCaseConflict, Apply, Formed,
           NoRepeats, Normalize, NameOK, Busy;
      t := s;
      SoundRegistry(s);
      AgreedKey(s, store.db.rows, id);
      var persisted: Option<Target>, stored := None, snapshot;
      var checked := manager.CheckUpdate(id, target.name, s);
      if checked == Committed {
        UpdateIsSafe(s, store.db, id, target.name);
        ConstraintIsWeaker(store.db.rows, TrimSpace(target.name), id);
        var r := store.UpdateTarget(id, target, apiKey);
        match r
        case Stored(updated, next) =>
          persisted, stored := Some(updated), Some(next);
          UpdateApplies(s, old(store.db), id, updated, store.db.rows[id]);
          t := Apply(s, Update(id, updated));
          OnlySettingsChange(s, Update(id, updated));
        case Rejected(_) =>
      }
      var outcome := manager.UpdateTarget(id, target.name, persisted, s);
      if outcome != Some(Committed) {
        return if outcome.None? then Malformed else if outcome.value == NoSuchTarget then Absent
               else if outcome.value == StillBusy then Occupied else Taken, t;
      }
      snapshot := stored;
      return Saved, t;
    }

    // The first section of UpdateTarget and DeleteTarget, and what others do until it is time to commit
    method Interlude(id: int, others: seq<Call>, ghost s: Sound) returns (ghost u: Sound)
      requires InStep(s) && AllAccepted(Apply(s, StopID(id)), others) && NoWrites(others)
      modifies manager
      ensures InStep(u) && u == Run(Apply(s, StopID(id)), StepsOf(Apply(s, StopID(id)), others))
    {
      hide Manager.Shows, Kept, Agree, Reads, IsSound, Apply, Formed, AllAccepted, Run, StepsOf, NoWrites, Counts;
      StopIsApplied(s, id);
      var key := manager.StopByID(id, s);
      u := Apply(s, StopID(id));
      PerformAll(manager, others, u);
      InterludeAgrees(s, id, others, store.db.rows);
      u := Run(u, StepsOf(u, others));
    }

    lemma StoreIsKept(s: Sound)
      requires InStep(s)
      ensures Kept(store.db)
    {
    }

    // What is stored and filed once an update has been saved
    lemma UpdateIsThere(before: Database, id: int, request: Request, t: Sound)
      requires InStep(t) && Kept(before) && id in before.rows
      requires Requested(request, before.rows[id].target).sortOrder >= 0
      requires var updated := Replaced(before, id, Requested(request, before.rows[id].target), NewKey(request));
        TargetOK(updated) && RowReplaced(before, id, updated, store.db)
      ensures id in store.db.rows
      ensures UpdatedAsAsked(request, before.rows[id].target, store.db.rows[id].target)
      ensures ManagerHas(t, store.db.rows[id].target)
    {
      hide Kept, Agree, IsSound, UpdatedAsAsked, ManagerHas, TargetOK;
      UpdatedIsThere(before, id, request, store.db, t);
    }

    // updateTarget as a whole. The target's runs are stopped; then the lock is released and others go on, in any way
    // but by another commit, which configWriteMu rules out, until the target is idle or the handler gives up waiting.
    // `u` is the protocol's state then, `t` the one in the end.
    method UpdateTarget(id: int, request: Request, others: seq<Call>, gaveUp: bool, ghost s: Sound)
      returns (reply: Reply, ghost u: Sound, ghost t: Sound)
      requires InStep(s) && AllAccepted(Apply(s, StopID(id)), others) && NoWrites(others)
      modifies this, manager, store
      ensures InStep(t)
      ensures reply != Saved ==> store.db == old(store.db) && snapshot == old(snapshot) && t == u
      ensures reply == Absent <==> id !in old(store.db).rows
      ensures reply == Absent ==> u == s
      ensures id in old(store.db).rows ==>
        var target := Requested(request, old(store.db).rows[id].target);
        && (reply == Saved <==>
              && TargetOK(Normalized(target)) && target.sortOrder >= 0 && !gaveUp
              && Formed(u) && UpdateOutcome(u, id, target.name) == Committed)
        && (TargetOK(Normalized(target)) && target.sortOrder >= 0 ==>
              u == Run(Apply(s, StopID(id)), StepsOf(Apply(s, StopID(id)), others)))
        && (reply == Saved ==>
              var updated := Replaced(old(store.db), id, target, NewKey(request));
              RowReplaced(old(store.db), id, updated, store.db) && t == Apply(u, Update(id, updated)))
      ensures reply == Saved ==>
        && id in old(store.db).rows && id in store.db.rows
        && UpdatedAsAsked(request, old(store.db).rows[id].target, store.db.rows[id].target)
        && ManagerHas(t, store.db.rows[id].target)
    {
      hide InStep, TargetOK, IsSound, Apply, Formed, AllAccepted, Run, StepsOf, NoWrites, UpdateOutcome, Requested,
           NewKey, Replaced, Normalized, Kept, UpdatedAsAsked, ManagerHas;
      u, t := s, s;
      StoreIsKept(s);
      var prepared, target, apiKey := PrepareUpdate(id, request, s);
      if prepared != Saved { return prepared, u, t; }
      ValidRequest(target);
      u := Interlude(id, others, s);
      t := u;
      if gaveUp { return Occupied, u, t; }
      reply, t := CommitUpdate(id, target, apiKey, u);
      if reply == Saved { UpdateIsThere(old(store.db), id, request, t); }
    }

    // deleteTarget, once the target's runs have been stopped and waited for: saved if and only if the manager still
    // allows it
    method CommitDelete(id: int, ghost s: Sound) returns (reply: Reply, ghost t: Sound)
      requires InStep(s)
      modifies this, manager, store
      ensures InStep(t)
      ensures reply != Saved ==> t == s && store.db == old(store.db) && snapshot == old(snapshot)
      ensures reply == Absent <==> id !in old(store.db).rows
      ensures reply == Saved <==> Formed(s) && DeleteOutcome(s, id) == Committed
      ensures reply == Saved ==>
        && id in old(store.db).rows && t == Apply(s, Delete(id))
        && store.db == old(store.db).(rows := old(store.db).rows - {id}, revision := old(store.db).revision + 1)
    {
      hide Manager.Shows, Kept, Agree, Reads, IsSound, Apply, Formed, NoRepeats, Busy;
      t := s;
      SoundRegistry(s);
      AgreedKey(s, store.db.rows, id);
      var persisted, stored := false, snapshot;
      var checked := manager.CheckDelete(id, s);
      if checked == Committed {
        DeleteApplies(s, store.db, id);
        var r := store.DeleteTarget(id);
        match r
        case Stored(_, next) =>
          persisted, stored := true, Some(next);
          t := Apply(s, Delete(id));
          OnlySettingsChange(s, Delete(id));
        case Rejected(_) =>
      }
      var outcome := manager.DeleteTarget(id, persisted, s);
      if outcome != Some(Committed) {
        return if outcome.None? then Malformed else if outcome.value == NoSuchTarget then Absent else Occupied, t;
      }
      snapshot := stored;
      return Saved, t;
    }

    // The lookup DeleteTarget begins with
    method Knows(id: int, ghost s: Sound) returns (known: bool)
      requires InStep(s)
      ensures known == (id in store.db.rows)
    {
      hide Manager.Shows, Kept, Agree, Reads, IsSound, Formed, NoRepeats;
      SoundRegistry(s);
      AgreedKey(s, store.db.rows, id);
      var key := manager.TargetKeyByID(id, s);
      known := key.Some?;
    }

    // deleteTarget as a whole; the parameters are UpdateTarget's
    method DeleteTarget(id: int, others: seq<Call>, gaveUp: bool, ghost s: Sound)
      returns (reply: Reply, ghost u: Sound, ghost t: Sound)
      requires InStep(s) && AllAccepted(Apply(s, StopID(id)), others) && NoWrites(others)
      modifies this, manager, store
      ensures InStep(t)
      ensures reply != Saved ==> store.db == old(store.db) && snapshot == old(snapshot) && t == u
      ensures reply == Absent <==> id !in old(store.db).rows
      ensures reply == Absent ==> u == s
      ensures reply != Absent ==>
        && u == Run(Apply(s, StopID(id)), StepsOf(Apply(s, StopID(id)), others))
        && (reply == Saved <==> !gaveUp && Formed(u) && DeleteOutcome(u, id) == Committed)
      ensures reply == Saved ==>
        && id in old(store.db).rows && t == Apply(u, Delete(id))
        && store.db == old(store.db).(rows := old(store.db).rows - {id}, revision := old(store.db).revision + 1)
    {
      hide InStep, IsSound, Apply, Formed, AllAccepted, Run, StepsOf, NoWrites, DeleteOutcome;
      u, t := s, s;
      var known := Knows(id, s);
      if !known { return Absent, u, t; }
      u := Interlude(id, others, s);
      t := u;
      if gaveUp { return Occupied, u, t; }
      reply, t := CommitDelete(id, u);
    }

    // applyRuntimeConfiguration; `samples` are the values randomDuration returns
    method ApplyRuntime(c: CodexConfig, samples: map<Key, int>, ghost s: Sound) returns (ghost t: Sound)
      requires manager.Shows(s) && CodexOK(c)
      requires AreSamples(s.cells, samples, c.keepaliveMin * SECOND, c.keepaliveMax * SECOND)
      modifies manager
      ensures t == Apply(s, SettingsOf(c, samples)) && manager.Shows(t) && Applied(t.env, c)
      ensures SameTargets(s, t)
    {
      hide Manager.Shows, IsSound, AreSamples, Formed, JobApi.UpdateSettings, SameTargets;
      SettingsAreApplied(s, c, samples);
      manager.UpdateSettings(
        c.keepaliveMin * SECOND, c.keepaliveMax * SECOND, c.maxParallel, c.successMessage, samples, s);
      t := Apply(s, SettingsOf(c, samples));
    }

    // updateCodexConfig: saved if and only if the section is valid, and then the manager works by it
    method UpdateCodex(request: CodexConfig, samples: map<Key, int>, ghost s: Sound)
      returns (reply: Reply, ghost t: Sound)
      requires InStep(s)
      requires AreSamples(s.cells, samples, request.keepaliveMin * SECOND, request.keepaliveMax * SECOND)
      modifies this, manager, store
      ensures InStep(t)
      ensures reply == Saved <==> ValidateCodex(RequestedCodex(request))
      ensures reply != Saved ==> t == s && store.db == old(store.db) && snapshot == old(snapshot)
      ensures reply == Saved ==>
        && store.db == old(store.db).(
             codex := Section(CleanCodex(RequestedCodex(request)), old(store.db).codex.revision + 1),
             revision := old(store.db).revision + 1)
        && t == Apply(s, SettingsOf(store.db.codex.value, samples))
        && CodexAsAsked(request, store.db.codex.value)
    {
      hide Manager.Shows, Kept, Agree, Reads, IsSound, AreSamples, SettingsOf, Apply, ValidateCodex, CodexOK, Applied,
           CleanCodex, CodexAsAsked;
      CleanedIsAsAsked(request);
      t := s;
      var prompts := CleanEach(request.prompts);
      var overrides := CleanEach(request.overrides);
      var value := request.(prompts := prompts, promptsPersisted := true, overrides := overrides);
      var ok := CheckCodex(value);
      if !ok { return Malformed, t; }
      CleanedIsValid(request);
      var r := store.UpdateCodex(value);
      match r
      case Rejected(_) => return Malformed, t;
      case Stored(_, next) =>
        t := ApplyRuntime(store.db.codex.value, samples, s);
        SameTargetsAgree(s, t, store.db.rows);
        snapshot := Some(next);
        return Saved, t;
    }

    // updateWebConfig: saved if and only if the section is valid; it also applies the codex section again
    method UpdateWeb(request: WebConfig, samples: map<Key, int>, ghost s: Sound) returns (reply: Reply, ghost t: Sound)
      requires InStep(s) && AreSamples(s.cells, samples, s.env.keepaliveMin, s.env.keepaliveMax)
      modifies this, manager, store
      ensures InStep(t)
      ensures reply == Saved <==> ValidateWeb(RequestedWeb(request))
      ensures reply != Saved ==> t == s && store.db == old(store.db) && snapshot == old(snapshot)
      ensures reply == Saved ==>
        && store.db == old(store.db).(
             web := Section(CleanWeb(RequestedWeb(request)), old(store.db).web.revision + 1),
             revision := old(store.db).revision + 1)
        && store.db.web.value == WebConfig(
             TrimSpace(request.listenAddress), request.cookieSecure, CleanStrings(request.trustedProxies),
             request.activityLimit)
        && t == Apply(s, SettingsOf(store.db.codex.value, samples))
    {
      hide Manager.Shows, Agree, Reads, IsSound, AreSamples, SettingsOf, Apply, ValidateWeb, CodexOK, CleanWeb,
           TargetOK,
           RowNamesDiffer, RowsKeyed, OpenILinkOK, TelegramOK, WebOK;
      CleanedWebIsAsAsked(request);
      t := s;
      var proxies := CleanEach(request.trustedProxies);
      var value := request.(trustedProxies := proxies);
      var ok := CheckWeb(value);
      if !ok { return Malformed, t; }
      CleanedWebIsValid(request);
      var r := store.UpdateWeb(value);
      match r
      case Rejected(_) => return Malformed, t;
      case Stored(_, next) =>
        t := ApplyRuntime(store.db.codex.value, samples, s);
        SameTargetsAgree(s, t, store.db.rows);
        snapshot := Some(next);
        return Saved, t;
    }
  }

  // The part of main that loads the configuration and starts manager and server on it; `preflight` is what the runner's
  // check of the Codex program says, which is asked for if there are targets.
  method Boot(store: Store, preflight: bool, now: int, rootDone: bool)
    returns (server: Option<Server>, ghost s: Sound)
    requires RowsKeyed(store.db.rows, store.db.lastID)
    ensures server.Some? <==> Loadable(store.db) && (store.db.rows == map[] || preflight)
    ensures server.Some? ==> server.value.store == store && fresh(server.value.manager) && server.value.InStep(s)
    ensures server.Some? ==>
      server.value.snapshot.Some? && s == Booted(server.value.snapshot.value.config, now, rootDone)
  {
    hide Loadable, RowsKeyed, IsSound, Agree, Bootable, Manager.Shows, NewManager, IsListing;
    EmptyIsSound();
    s := EMPTY;
    var loaded := store.Load();
    if loaded.None? { return None, s; }
    ListingIsEmpty(loaded.value.config.targets, store.db.rows);
    if |loaded.value.config.targets| > 0 && !preflight { return None, s; }
    var c := loaded.value.config.codex;
    LoadedStarts(store.db, loaded.value, now, rootDone);
    s := Booted(loaded.value.config, now, rootDone);
    var manager := new Manager(
      loaded.value.config.targets, c.keepaliveMin * SECOND, c.keepaliveMax * SECOND, c.maxParallel,
      c.successMessage, now, rootDone);
    var made := new Server(manager, store, loaded.value, s);
    return Some(made), s;
  }
}
