/** The store: the database's tables, and the transactions that write them. */
module ConfigStore {
  import opened Text
  import opened Targets
  import opened Configuration
  import opened JobRegistry

  const MINIMUM_PASSWORD := 5

  datatype Row = Row(target: Target, revision: int)

  datatype Section<T> = Section(value: T, revision: int)

  datatype Account = Account(username: string, hash: string)

  // The tables. `lastID` is what AUTOINCREMENT remembers. A section's secret is kept decrypted in its value.
  datatype Database = Database(
    rows: map<int, Row>, lastID: int,
    codex: Section<CodexConfig>, openILink: Section<OpenILinkConfig>, telegram: Section<TelegramConfig>,
    web: Section<WebConfig>,
    admin: Option<Account>, suggested: string, revision: int)

  // ---------------------------------------------------------------- loading

  // The target rows in the order of ORDER BY sort_order, id.
  ghost predicate IsListing(ts: seq<Target>, rows: map<int, Row>) {
    && (forall i, j :: 0 <= i < j < |ts| ==> Before(ts[i], ts[j]))
    && (forall t <- ts :: t.id in rows && rows[t.id].target == t)
    && (forall id <- rows :: rows[id].target in ts)
  }

  ghost predicate Ascending(ts: seq<Target>) {
    forall i, j :: 0 <= i < j < |ts| ==> Before(ts[i], ts[j])
  }

  // In an ascending list the last target comes after every other.
  lemma LastIsGreatest(ts: seq<Target>, t: Target)
    requires Ascending(ts) && t in ts
    ensures t == ts[|ts| - 1] || (Before(t, ts[|ts| - 1]) && t in ts[..|ts| - 1])
  {
    var n :| 0 <= n < |ts| && ts[n] == t;
  }

  lemma {:induction false} AscendingIsUnique(ts: seq<Target>, us: seq<Target>)
    requires Ascending(ts) && Ascending(us) && forall t :: t in ts <==> t in us
    ensures ts == us
  {
    assert (ts != [] ==> ts[0] in us) && (us != [] ==> us[0] in ts);
    if ts != [] && us != [] {
      var m, n := |ts| - 1, |us| - 1;
      assert ts[m] in us && us[n] in ts;
      LastIsGreatest(us, ts[m]);
      LastIsGreatest(ts, us[n]);
      forall t ensures t in ts[..m] <==> t in us[..n] {
        if t in ts { LastIsGreatest(ts, t); LastIsGreatest(us, t); }
      }
      AscendingIsUnique(ts[..m], us[..n]);
    }
  }

  // There is one listing of the rows.
  lemma ListingIsUnique(ts: seq<Target>, us: seq<Target>, rows: map<int, Row>)
    requires IsListing(ts, rows) && IsListing(us, rows)
    ensures ts == us
  {
    AscendingIsUnique(ts, us);
  }

  function ConfigOf(db: Database, ts: seq<Target>): Config {
    Config(db.openILink.value, db.telegram.value, db.codex.value, db.web.value, ts)
  }

  // No two rows' names differ in letter case alone.
  ghost predicate RowNamesDiffer(rows: map<int, Row>) {
    forall i, j | i in rows && j in rows :: ToLower(rows[i].target.name) == ToLower(rows[j].target.name) ==> i == j
  }

  // A row's id is its key, and AUTOINCREMENT has passed it.
  ghost predicate RowsKeyed(rows: map<int, Row>, lastID: int) {
    forall id <- rows :: rows[id].target.id == id && id <= lastID && rows[id].target.sortOrder >= 0
  }

  // What Load accepts, whatever has been done to the tables.
  ghost predicate Loadable(db: Database) {
    && OpenILinkOK(db.openILink.value) && TelegramOK(db.telegram.value)
    && CodexOK(db.codex.value) && WebOK(db.web.value)
    && (forall id <- db.rows :: TargetOK(db.rows[id].target)) && RowNamesDiffer(db.rows)
    && db.suggested != ""
  }

  ghost predicate Kept(db: Database) {
    RowsKeyed(db.rows, db.lastID) && Loadable(db)
  }

  // The whole configuration is valid exactly if what the tables hold is.
  lemma LoadableIsValid(db: Database, ts: seq<Target>)
    requires RowsKeyed(db.rows, db.lastID) && IsListing(ts, db.rows)
    ensures Loadable(db) <==> ValidConfig(ConfigOf(db, ts), true) && db.suggested != ""
  {
    hide OpenILinkOK, TelegramOK, CodexOK, WebOK, TargetOK, ToLower;
    forall t <- ts ensures t.id in db.rows && db.rows[t.id].target == t {}
    if RowNamesDiffer(db.rows) {
      forall i, j | 0 <= i < j < |ts| ensures ToLower(ts[i].name) != ToLower(ts[j].name) {
        assert ts[i] in ts && ts[j] in ts;
      }
    }
    if NamesDiffer(ts) {
      forall a, b | a in db.rows && b in db.rows && a != b
        ensures ToLower(db.rows[a].target.name) != ToLower(db.rows[b].target.name)
      {
        var i :| 0 <= i < |ts| && ts[i] == db.rows[a].target;
        var j :| 0 <= j < |ts| && ts[j] == db.rows[b].target;
      }
    }
  }

  lemma NotEmpty(ids: set<int>)
    requires ids != {}
    ensures exists id :: id in ids
  {
    assert (forall id :: id !in ids) ==> ids == {};
  }

  lemma {:induction false} FirstRow(ids: set<int>, rows: map<int, Row>) returns (first: int)
    requires ids != {} && ids <= rows.Keys && forall id <- ids :: rows[id].target.id == id
    ensures first in ids && forall id <- ids :: id == first || Before(rows[first].target, rows[id].target)
    decreases |ids|
  {
    NotEmpty(ids);
    var some :| some in ids;
    if ids == {some} { first := some; }
    else {
      assert |ids - {some}| < |ids|;
      var other := FirstRow(ids - {some}, rows);
      first := if Before(rows[some].target, rows[other].target) then some else other;
    }
  }

  datatype Snapshot = Snapshot(config: Config, revision: int, username: string, setupRequired: bool)

  // ---------------------------------------------------------------- outcomes

  datatype Problem = Invalid | Conflict | NotFound | AlreadySetup | NotLoaded

  datatype Written<T> = Stored(value: T, snapshot: Snapshot) | Rejected(problem: Problem)

  // Another row's name is the same but for the case of ASCII letters.
  predicate NoCaseConflict(rows: map<int, Row>, name: string, id: int) {
    exists other <- rows :: other != id && NoCase(rows[other].target.name) == NoCase(name)
  }

  ghost predicate LowerConflict(rows: map<int, Row>, name: string, id: int) {
    exists other <- rows :: other != id && ToLower(rows[other].target.name) == ToLower(name)
  }

  // The constraint in the table catches less than the check the configuration makes as a whole.
  lemma ConstraintIsWeaker(rows: map<int, Row>, name: string, id: int)
    ensures NoCaseConflict(rows, name, id) ==> LowerConflict(rows, name, id)
  {
    if NoCaseConflict(rows, name, id) {
      var other :| other in rows && other != id && NoCase(rows[other].target.name) == NoCase(name);
      NoCaseRefinesLower(rows[other].target.name, name);
    }
  }

  ghost predicate IsMaximum(rows: map<int, Row>, maximum: Option<int>) {
    match maximum
    case None => rows == map[]
    case Some(m) =>
      (exists id <- rows :: rows[id].target.sortOrder == m) && forall id <- rows :: rows[id].target.sortOrder <= m
  }

  // The row CreateTarget writes.
  ghost predicate IsCreated(db: Database, target: Target, created: Target) {
    && created.id == db.lastID + 1
    && created == Normalized(target).(id := created.id, sortOrder := created.sortOrder)
    && (target.sortOrder >= 0 ==> created.sortOrder == target.sortOrder)
    && (target.sortOrder < 0 ==>
      exists m :: IsMaximum(db.rows, m) && created.sortOrder == if m.None? then 0 else m.value + 1)
  }

  // CreateTarget's commit.
  ghost predicate Inserted(before: Database, target: Target, created: Target, after: Database) {
    && IsCreated(before, target, created)
    && after == before.(rows := before.rows[created.id := Row(created, 1)], lastID := created.id,
                        revision := before.revision + 1)
  }

  // UpdateTarget's commit.
  ghost predicate RowReplaced(before: Database, id: int, updated: Target, after: Database)
    requires id in before.rows
  {
    after == before.(rows := before.rows[id := Row(updated, before.rows[id].revision + 1)],
                     revision := before.revision + 1)
  }

  function CleanCodex(c: CodexConfig): CodexConfig {
    c.(binary := TrimSpace(c.binary), promptsFile := TrimSpace(c.promptsFile),
       successMessage := TrimSpace(c.successMessage), reasoningEffort := TrimSpace(c.reasoningEffort),
       overrides := Trimmed(c.overrides), prompts := Trimmed(c.prompts), promptsPersisted := true)
  }

  function CleanWeb(c: WebConfig): WebConfig {
    c.(listenAddress := TrimSpace(c.listenAddress), trustedProxies := Trimmed(c.trustedProxies))
  }

  // The token UpdateOpenILink writes, and the one UpdateTelegram does.
  function OpenILinkToken(current: string, token: Option<string>): string {
    if token.Some? && (TrimSpace(token.value) != "" || token.value == "") then TrimSpace(token.value) else current
  }

  function TelegramToken(current: string, token: Option<string>): string {
    if token.Some? then TrimSpace(token.value) else current
  }

  // Both promise to keep the token if none is given and to clear it if an empty one is. They part company on a token of
  // nothing but spaces: OpenILink keeps the old one, Telegram clears it.
  lemma TokenRulesDiffer(current: string, token: Option<string>)
    ensures OpenILinkToken(current, token) == TelegramToken(current, token)
      <==> !(token.Some? && token.value != "" && TrimSpace(token.value) == "" && current != "")
  {
    assert TrimSpace("") == "";
  }

  lemma TokensAreTaken(current: string, token: string)
    ensures OpenILinkToken(current, None) == TelegramToken(current, None) == current
    ensures OpenILinkToken(current, Some("")) == TelegramToken(current, Some("")) == ""
    ensures TrimSpace(token) != "" ==>
      OpenILinkToken(current, Some(token)) == TelegramToken(current, Some(token)) == TrimSpace(token)
    ensures TrimSpace(token) == "" && token != "" ==>
      OpenILinkToken(current, Some(token)) == current && TelegramToken(current, Some(token)) == ""
  {
    assert TrimSpace("") == "";
  }

  function CleanOpenILink(c: OpenILinkConfig, current: string, token: Option<string>): OpenILinkConfig {
    c.(baseURL := TrimSlashes(TrimSpace(c.baseURL)), allowedUserIDs := Trimmed(c.allowedUserIDs),
       token := OpenILinkToken(current, token))
  }

  function CleanTelegram(c: TelegramConfig, current: string, token: Option<string>): TelegramConfig {
    c.(baseURL := TrimSlashes(TrimSpace(c.baseURL)), allowedUserIDs := Trimmed(c.allowedUserIDs),
       token := TelegramToken(current, token))
  }

  function Replaced(db: Database, id: int, target: Target, apiKey: Option<string>): Target
    requires id in db.rows
  {
    var current := db.rows[id].target;
    Normalized(target).(
      id := id, sortOrder := if target.sortOrder < 0 then current.sortOrder else target.sortOrder,
      apiKey := if apiKey.Some? && TrimSpace(apiKey.value) != "" then TrimSpace(apiKey.value) else current.apiKey)
  }

  lemma ReplacedIsNormalized(db: Database, id: int, target: Target, apiKey: Option<string>)
    requires id in db.rows
    ensures Replaced(db, id, target, apiKey).name == Normalized(target).name
    ensures Replaced(db, id, target, apiKey).id == id
  {
  }

  lemma ReplacedKeepsOrder(db: Database, id: int, target: Target, apiKey: Option<string>)
    requires Kept(db) && id in db.rows
    ensures Replaced(db, id, target, apiKey).sortOrder >= 0 && id <= db.lastID
  {
  }

  // The snapshot is what the tables say.
  ghost predicate Reads(snapshot: Snapshot, db: Database) {
    && snapshot.config == ConfigOf(db, snapshot.config.targets) && IsListing(snapshot.config.targets, db.rows)
    && snapshot.revision == db.revision && snapshot.setupRequired == db.admin.None?
    && snapshot.username == if db.admin.Some? then db.admin.value.username else db.suggested
  }

  // bumpRevisionTx
  function BumpRevision(tx: Database): Database {
    tx.(revision := tx.revision + 1)
  }

  lemma MaximumIsNatural(db: Database, maximum: Option<int>)
    requires Kept(db) && IsMaximum(db.rows, maximum)
    ensures maximum.Some? ==> maximum.value >= 0
  {
  }

  // Whether a row is valid does not depend on its id or place.
  lemma SortOrderIsFree(t: Target, u: Target)
    requires u == t.(id := u.id, sortOrder := u.sortOrder)
    ensures TargetOK(u) == TargetOK(t)
  {
  }

  // ---------------------------------------------------------------- what one row does to the whole

  // A valid row may join the others if its name, in lower case, is new.
  lemma RowJoins(db: Database, id: int, row: Row, lastID: int, revision: int)
    requires Kept(db) && row.target.id == id && db.lastID <= lastID && id <= lastID
    requires TargetOK(row.target) && row.target.sortOrder >= 0
    ensures var after := db.(rows := db.rows[id := row], lastID := lastID, revision := revision);
      && RowsKeyed(after.rows, after.lastID)
      && (Loadable(after) <==> !LowerConflict(db.rows, row.target.name, id))
      && (Kept(after) <==> !LowerConflict(db.rows, row.target.name, id))
  {
    hide OpenILinkOK, TelegramOK, CodexOK, WebOK, TargetOK, ToLower;
    var after := db.rows[id := row];
    if LowerConflict(db.rows, row.target.name, id) {
      var other :| other in db.rows && other != id && ToLower(db.rows[other].target.name) == ToLower(row.target.name);
      assert other in after && id in after;
    }
  }

  // A section that is saved says what was asked for, each field cleaned; the token has its own rule.
  lemma SavedIsAsAsked(o: OpenILinkConfig, t: TelegramConfig, current: string, token: Option<string>)
    ensures CleanOpenILink(o, current, token) == OpenILinkConfig(
      o.enabled, TrimSlashes(TrimSpace(o.baseURL)), OpenILinkToken(current, token), Trimmed(o.allowedUserIDs),
      o.httpTimeout)
    ensures CleanTelegram(t, current, token) == TelegramConfig(
      t.enabled, TrimSlashes(TrimSpace(t.baseURL)), TelegramToken(current, token), Trimmed(t.allowedUserIDs),
      t.httpTimeout, t.pollTimeout)
  {
    hide TrimSpace, TrimSlashes, Trimmed;
  }

  // Where the lower-case table has the German umlaut, the constraint takes two names for different that the
  // configuration takes for one: the second row is written, and what is then in the tables cannot be loaded.
  lemma NoCaseIsNotEnough(db: Database, id: int, target: Target)
    requires UNICODE_LOWER('\U{C4}') == '\U{E4}' && UNICODE_LOWER('\U{E4}') == '\U{E4}'
    requires Kept(db) && id in db.rows && db.rows[id].target.name == "\U{C4}"
    requires TargetOK(Normalized(target)) && Normalized(target).name == "\U{E4}"
    ensures !NoCaseConflict(db.rows, "\U{E4}", db.lastID + 1) && LowerConflict(db.rows, "\U{E4}", db.lastID + 1)
    ensures forall created, after :: Inserted(db, target, created, after) ==> !Loadable(after)
  {
    assert ToLower("\U{C4}") == "\U{E4}" && ToLower("\U{E4}") == "\U{E4}";
    assert NoCase("\U{C4}")[0] != NoCase("\U{E4}")[0];
    if NoCaseConflict(db.rows, "\U{E4}", db.lastID + 1) {
      var other :| other in db.rows && NoCase(db.rows[other].target.name) == NoCase("\U{E4}");
      NoCaseRefinesLower(db.rows[other].target.name, "\U{E4}");
    }
    forall created, after | Inserted(db, target, created, after) ensures !Loadable(after) {
      assert created.id in after.rows && id in after.rows && id != created.id;
    }
  }

  function Umlaut(id: int, name: string): Target {
    Target(id, 0, name, "http://a", "k", "m", "responses", [])
  }

  // A database with one target.
  function UmlautDatabase(): Database {
    Database(
      map[1 := Row(Umlaut(1, "\U{C4}"), 1)], 1, Section(DEFAULT.codex, 1), Section(DEFAULT.openILink, 1),
      Section(DEFAULT.telegram, 1), Section(DEFAULT.web, 1), None, "admin", 1)
  }

  lemma UmlautIsTrimmed(name: string)
    requires name == "\U{C4}" || name == "\U{E4}"
    ensures TrimSpace(name) == name && TrimSpace("k") == "k" && TrimSpace("m") == "m"
    ensures TrimSlashes(TrimSpace("http://a")) == "http://a" && Normalize("responses") == "responses"
  {
    assert TrimSpace("responses") == "responses";
    hide TrimLeft, TrimRight;
    assert ToLower("responses") == "responses";
  }

  lemma UmlautIsOK(id: int, name: string)
    requires name == "\U{C4}" || name == "\U{E4}"
    requires IS_HTTP_URL("http://a")
    ensures TargetOK(Umlaut(id, name)) && Normalized(Umlaut(id, name)) == Umlaut(id, name)
  {
    assert |ToLower(name)| == 1;
    assert TargetOK(Umlaut(id, name));
    UmlautIsTrimmed(name);
    hide TargetOK, TrimSpace, TrimSlashes, ToLower;
  }

  // It can be loaded, and a request for a second target makes it one that cannot.
  lemma NotLoadedHappens()
    requires UNICODE_LOWER('\U{C4}') == '\U{E4}' && UNICODE_LOWER('\U{E4}') == '\U{E4}' && IS_HTTP_URL("http://a")
    ensures Kept(UmlautDatabase()) && TargetOK(Normalized(Umlaut(0, "\U{E4}")))
    ensures !NoCaseConflict(UmlautDatabase().rows, "\U{E4}", 2)
    ensures forall created, after ::
      Inserted(UmlautDatabase(), Umlaut(0, "\U{E4}"), created, after) ==> !Loadable(after)
  {
    DefaultIsValid();
    var t := Umlaut(0, "\U{E4}");
    UmlautIsOK(1, "\U{C4}");
    UmlautIsOK(0, "\U{E4}");
    hide TargetOK, Normalized;
    NoCaseIsNotEnough(UmlautDatabase(), 1, t);
  }

  lemma RowLeaves(db: Database, id: int, revision: int)
    requires Kept(db)
    ensures Kept(db.(rows := db.rows - {id}, revision := revision))
  {
    hide OpenILinkOK, TelegramOK, CodexOK, WebOK, TargetOK, ToLower;
  }

  lemma ValidCodexIsOK(c: CodexConfig)
    requires ValidateCodex(c)
    ensures CodexOK(c)
  {
  }

  // ---------------------------------------------------------------- the first start

  // The targets a database starts with: normalized, in the order they were configured.
  function InitialTarget(targets: seq<Target>, i: nat): Target
    requires i < |targets|
  {
    Normalized(targets[i]).(sortOrder := i)
  }

  function InitialTargets(targets: seq<Target>): (r: seq<Target>)
    ensures |r| == |targets|
  {
    seq(|targets|, i requires 0 <= i < |targets| => InitialTarget(targets, i))
  }

  // The prompts stay in their file until the section is first saved.
  function Unprompted(c: CodexConfig): CodexConfig {
    c.(prompts := [], promptsPersisted := false)
  }

  // What becomes of the configuration before it is validated.
  function Initial(c: Config): Config {
    c.(openILink := c.openILink.(token := TrimSpace(c.openILink.token)),
       telegram := c.telegram.(token := TrimSpace(c.telegram.token)), targets := InitialTargets(c.targets))
  }

  lemma PromptsAreFree(c: CodexConfig)
    ensures CodexOK(Unprompted(c)) == CodexOK(c)
  {
  }

  // Row i is the i-th target, with the next id.
  ghost predicate HoldsFirst(rows: map<int, Row>, targets: seq<Target>, n: nat)
    requires n <= |targets|
  {
    && (forall id :: id in rows <==> 1 <= id <= n)
    && forall i :: 0 <= i < n ==> i + 1 in rows && rows[i + 1] == Row(InitialTarget(targets, i).(id := i + 1), 1)
  }

  // So it says what was configured, each field cleaned, and its place is that in the configuration.
  lemma FirstRowSays(rows: map<int, Row>, targets: seq<Target>, i: nat)
    requires i < |targets| && HoldsFirst(rows, targets, |targets|)
    ensures i + 1 in rows
    ensures var t, row := targets[i], rows[i + 1].target;
      && row.id == i + 1 && row.sortOrder == i && row.name == TrimSpace(t.name) && row.model == TrimSpace(t.model)
      && row.baseURL == TrimSlashes(TrimSpace(t.baseURL)) && row.apiKey == TrimSpace(t.apiKey)
      && row.overrides == Trimmed(t.overrides) && row.wireAPI == Normalized(t).wireAPI
  {
    hide TrimSpace, TrimSlashes, Trimmed, Normalize;
    assert rows[i + 1] == Row(InitialTarget(targets, i).(id := i + 1), 1);
  }

  // Names the configuration accepts never run into the table's constraint.
  lemma InsertSucceeds(rows: map<int, Row>, targets: seq<Target>, n: nat)
    requires n < |targets| && HoldsFirst(rows, targets, n) && NamesDiffer(InitialTargets(targets))
    ensures !NoCaseConflict(rows, InitialTarget(targets, n).name, n + 1)
  {
    hide Normalized;
    ConstraintIsWeaker(rows, InitialTarget(targets, n).name, n + 1);
    forall other <- rows ensures ToLower(rows[other].target.name) != ToLower(InitialTarget(targets, n).name) {
      assert rows[other - 1 + 1] == Row(InitialTarget(targets, other - 1).(id := other), 1);
      assert ToLower(InitialTargets(targets)[other - 1].name) != ToLower(InitialTargets(targets)[n].name);
    }
  }

  // Each of the first rows is a target of the configuration, with an id of its own.
  lemma FirstRowOf(db: Database, config: Config, id: int)
    requires (forall t <- InitialTargets(config.targets) :: TargetOK(t)) && id in db.rows
    requires HoldsFirst(db.rows, config.targets, |config.targets|)
    ensures 1 <= id <= |config.targets| && TargetOK(db.rows[id].target)
    ensures db.rows[id].target == InitialTargets(config.targets)[id - 1].(id := id) && db.rows[id].target.sortOrder >= 0
  {
    hide TargetOK, Normalized;
    var ts := InitialTargets(config.targets);
    assert db.rows[id - 1 + 1] == Row(InitialTarget(config.targets, id - 1).(id := id), 1);
    assert ts[id - 1] in ts;
    SortOrderIsFree(ts[id - 1], db.rows[id].target);
  }

  lemma FirstDatabaseIsKept(db: Database, config: Config)
    requires ValidConfig(Initial(config), true) && db.suggested != ""
    requires HoldsFirst(db.rows, config.targets, |config.targets|) && db.lastID == |config.targets|
    requires db.openILink.value == Initial(config).openILink && db.telegram.value == Initial(config).telegram
    requires db.codex.value == Unprompted(config.codex) && db.web.value == config.web
    ensures Kept(db)
  {
    hide OpenILinkOK, TelegramOK, CodexOK, WebOK, TargetOK, ToLower, Normalized, Unprompted, InitialTarget,
         InitialTargets, HoldsFirst;
    PromptsAreFree(config.codex);
    var ts := InitialTargets(config.targets);
    forall id <- db.rows
      ensures 1 <= id <= |config.targets| && TargetOK(db.rows[id].target) && db.rows[id].target.sortOrder >= 0
      ensures db.rows[id].target == ts[id - 1].(id := id)
    {
      FirstRowOf(db, config, id);
    }
    forall a, b | a in db.rows && b in db.rows && a < b
      ensures ToLower(db.rows[a].target.name) != ToLower(db.rows[b].target.name)
    {
      assert ToLower(ts[a - 1].name) != ToLower(ts[b - 1].name);
    }
  }

  // initialize: a configuration becomes a database exactly if it is valid as a whole
  method Initialize(config: Config, suggested: string) returns (db: Option<Database>)
    requires suggested != ""
    ensures db.Some? <==> ValidConfig(Initial(config), true)
    ensures db.Some? ==>
      && Kept(db.value) && HoldsFirst(db.value.rows, config.targets, |config.targets|)
      && db.value.web == Section(config.web, 1)
      && db.value.openILink == Section(config.openILink.(token := TrimSpace(config.openILink.token)), 1)
      && db.value.telegram == Section(config.telegram.(token := TrimSpace(config.telegram.token)), 1)
      && db.value.codex == Section(config.codex.(prompts := [], promptsPersisted := false), 1)
      && db.value.revision == 1 && db.value.admin.None? && db.value.suggested == suggested
  {
    hide OpenILinkOK, TelegramOK, CodexOK, WebOK, TargetOK, NamesDiffer, Normalized, Kept, NoCaseConflict;
    var openILink := config.openILink.(token := TrimSpace(config.openILink.token));
    var telegram := config.telegram.(token := TrimSpace(config.telegram.token));
    var targets := config.targets;
    for i := 0 to |targets|
      invariant |targets| == |config.targets|
      invariant forall j :: 0 <= j < i ==> targets[j] == InitialTarget(config.targets, j)
      invariant forall j :: i <= j < |targets| ==> targets[j] == config.targets[j]
    {
      var t := NormalizeTarget(targets[i]);
      targets := targets[i := t.(sortOrder := i)];
    }
    assert targets == InitialTargets(config.targets);
    var problem := Validate(config.(openILink := openILink, telegram := telegram, targets := targets), true);
    if problem.Some? { return None; }
    var rows: map<int, Row> := map[];
    for i := 0 to |targets|
      invariant HoldsFirst(rows, config.targets, i)
    {
      InsertSucceeds(rows, config.targets, i);
      if NoCaseConflict(rows, targets[i].name, i + 1) { assert false; return None; }
      rows := rows[i + 1 := Row(targets[i].(id := i + 1), 1)];
    }
    var created := Database(
      rows, |targets|, Section(Unprompted(config.codex), 1), Section(openILink, 1), Section(telegram, 1),
      Section(config.web, 1), None, suggested, 1);
    FirstDatabaseIsKept(created, config);
    return Some(created);
  }

  class Store {
    var db: Database

    constructor (db: Database)
      ensures this.db == db
    {
      this.db := db;
    }

    // The query for the targets, ordered by sort_order and id
    method ListTargets() returns (ts: seq<Target>)
      requires RowsKeyed(db.rows, db.lastID)
      ensures IsListing(ts, db.rows)
    {
      ts := [];
      var rest := db.rows.Keys;
      while rest != {}
        invariant rest <= db.rows.Keys
        invariant forall i, j :: 0 <= i < j < |ts| ==> Before(ts[i], ts[j])
        invariant forall t <- ts :: t.id in db.rows && t.id !in rest && db.rows[t.id].target == t
        invariant forall id <- db.rows :: id in rest || db.rows[id].target in ts
        invariant forall t <- ts :: forall id <- rest :: Before(t, db.rows[id].target)
      {
        ghost var first := FirstRow(rest, db.rows);
        var id :|
          id in rest && forall other <- rest :: other == id || Before(db.rows[id].target, db.rows[other].target);
        rest := rest - {id};
        ts := ts + [db.rows[id].target];
      }
    }

    // Load
    method Load() returns (snapshot: Option<Snapshot>)
      requires RowsKeyed(db.rows, db.lastID)
      ensures snapshot.Some? <==> Loadable(db)
      ensures snapshot.Some? ==> Reads(snapshot.value, db)
    {
      var ts := ListTargets();
      var config := ConfigOf(db, ts);
      LoadableIsValid(db, ts);
      if db.suggested == "" { return None; }
      var problem := Validate(config, true);
      if problem.Some? { return None; }
      return Some(Snapshot(
        config, db.revision, if db.admin.Some? then db.admin.value.username else db.suggested, db.admin.None?));
    }

    method MaximumSortOrder() returns (maximum: Option<int>)
      ensures IsMaximum(db.rows, maximum)
    {
      maximum := None;
      var rest := db.rows.Keys;
      while rest != {}
        invariant rest <= db.rows.Keys
        invariant maximum.None? ==> rest == db.rows.Keys
        invariant maximum.Some? ==> exists id <- db.rows :: db.rows[id].target.sortOrder == maximum.value
        invariant maximum.Some? ==> forall id <- db.rows :: id in rest || db.rows[id].target.sortOrder <= maximum.value
      {
        NotEmpty(rest);
        var id :| id in rest;
        rest := rest - {id};
        if maximum.None? || maximum.value < db.rows[id].target.sortOrder {
          maximum := Some(db.rows[id].target.sortOrder);
        }
      }
    }

    // ---------------------------------------------------------------- targets

    // A rejected write leaves the tables as they were. A write that was committed cannot be loaded again, and is
    // reported as failed, exactly if another row has the name in a letter case the constraint does not see through.
    method CreateTarget(target: Target) returns (r: Written<Target>)
      requires Kept(db)
      modifies this
      ensures match r
        case Stored(created, snapshot) =>
          && TargetOK(Normalized(target)) && !LowerConflict(old(db).rows, created.name, created.id)
          && Inserted(old(db), target, created, db) && Kept(db) && Reads(snapshot, db)
        case Rejected(Invalid) => !TargetOK(Normalized(target)) && db == old(db)
        case Rejected(Conflict) =>
          && TargetOK(Normalized(target)) && db == old(db)
          && NoCaseConflict(db.rows, Normalized(target).name, db.lastID + 1)
        case Rejected(NotLoaded) =>
          && TargetOK(Normalized(target))
          && LowerConflict(old(db).rows, Normalized(target).name, old(db).lastID + 1)
          && !NoCaseConflict(old(db).rows, Normalized(target).name, old(db).lastID + 1)
          && exists created :: Inserted(old(db), target, created, db)
        case Rejected(_) => false
    {
      hide TargetOK, LowerConflict, NoCaseConflict, Kept, Loadable, Reads, RowsKeyed;
      var created := NormalizeTarget(target);
      if created.sortOrder < 0 {
        var maximum := MaximumSortOrder();
        MaximumIsNatural(db, maximum);
        created := created.(sortOrder := if maximum.Some? then maximum.value + 1 else 0);
      }
      SortOrderIsFree(Normalized(target), created);
      var ok := CheckTarget(created);
      if !ok { return Rejected(Invalid); }
      var tx, id := db, db.lastID + 1;
      if NoCaseConflict(tx.rows, created.name, id) { return Rejected(Conflict); }
      created := created.(id := id);
      SortOrderIsFree(Normalized(target), created);
      tx := tx.(rows := tx.rows[id := Row(created, 1)], lastID := id);
      RowJoins(db, id, Row(created, 1), id, db.revision + 1);
      tx := BumpRevision(tx);
      db := tx;
      assert Inserted(old(db), target, created, db);
      var snapshot := Load();
      if snapshot.None? { return Rejected(NotLoaded); }
      return Stored(created, snapshot.value);
    }

    // The row UpdateTarget writes: what the request leaves out stays
    method MergeTarget(id: int, target: Target, apiKey: Option<string>) returns (updated: Target)
      requires id in db.rows
      ensures updated == Replaced(db, id, target, apiKey)
    {
      var current := db.rows[id].target;
      updated := NormalizeTarget(target);
      updated := updated.(id := id, apiKey := current.apiKey);
      if updated.sortOrder < 0 { updated := updated.(sortOrder := current.sortOrder); }
      if apiKey.Some? && TrimSpace(apiKey.value) != "" { updated := updated.(apiKey := TrimSpace(apiKey.value)); }
    }

    // The same for a row that is replaced; an API key that is not given stays.
    method UpdateTarget(id: int, target: Target, apiKey: Option<string>) returns (r: Written<Target>)
      requires Kept(db)
      modifies this
      ensures match r
        case Stored(updated, snapshot) =>
          && id in old(db).rows && updated == Replaced(old(db), id, target, apiKey) && TargetOK(updated)
          && !LowerConflict(old(db).rows, updated.name, id)
          && RowReplaced(old(db), id, updated, db) && Kept(db) && Reads(snapshot, db)
        case Rejected(NotFound) => id !in db.rows && db == old(db)
        case Rejected(Invalid) =>
          id in db.rows && !TargetOK(Replaced(db, id, target, apiKey)) && db == old(db)
        case Rejected(Conflict) =>
          && id in db.rows && TargetOK(Replaced(db, id, target, apiKey)) && db == old(db)
          && NoCaseConflict(db.rows, Normalized(target).name, id)
        case Rejected(NotLoaded) =>
          && id in old(db).rows && TargetOK(Replaced(old(db), id, target, apiKey))
          && RowReplaced(old(db), id, Replaced(old(db), id, target, apiKey), db)
          && LowerConflict(old(db).rows, Normalized(target).name, id)
          && !NoCaseConflict(old(db).rows, Normalized(target).name, id)
        case Rejected(_) => false
    {
      hide TargetOK, LowerConflict, NoCaseConflict, Kept, Loadable, Reads, RowsKeyed, Replaced, Normalized;
      var tx := db;
      if id !in tx.rows { return Rejected(NotFound); }
      var updated := MergeTarget(id, target, apiKey);
      ReplacedIsNormalized(db, id, target, apiKey);
      ReplacedKeepsOrder(db, id, target, apiKey);
      var ok := CheckTarget(updated);
      if !ok { return Rejected(Invalid); }
      if NoCaseConflict(tx.rows, updated.name, id) { return Rejected(Conflict); }
      tx := tx.(rows := tx.rows[id := Row(updated, tx.rows[id].revision + 1)]);
      RowJoins(db, id, tx.rows[id], db.lastID, db.revision + 1);
      db := BumpRevision(tx);
      var snapshot := Load();
      if snapshot.None? { return Rejected(NotLoaded); }
      return Stored(updated, snapshot.value);
    }

    method DeleteTarget(id: int) returns (r: Written<()>)
      requires Kept(db)
      modifies this
      ensures match r
        case Stored(_, snapshot) =>
          && id in old(db).rows && db == old(db).(rows := old(db).rows - {id}, revision := old(db).revision + 1)
          && Kept(db) && Reads(snapshot, db)
        case Rejected(NotFound) => id !in db.rows && db == old(db)
        case Rejected(_) => false
    {
      hide Loadable, Reads;
      RowLeaves(db, id, db.revision + 1);
      var tx := db;
      if id !in tx.rows { return Rejected(NotFound); }
      tx := tx.(rows := tx.rows - {id});
      db := BumpRevision(tx);
      var snapshot := Load();
      return Stored((), snapshot.value);
    }

    // ---------------------------------------------------------------- sections

    // A section is written if it passes its own check, and then the whole can always be loaded.
    method UpdateCodex(value: CodexConfig) returns (r: Written<()>)
      requires Kept(db)
      modifies this
      ensures match r
        case Stored(_, snapshot) =>
          && ValidateCodex(CleanCodex(value)) && Kept(db) && Reads(snapshot, db)
          && db == old(db).(codex := Section(CleanCodex(value), old(db).codex.revision + 1),
                            revision := old(db).revision + 1)
        case Rejected(Invalid) => !ValidateCodex(CleanCodex(value)) && db == old(db)
        case Rejected(_) => false
    {
      hide Reads, TargetOK, RowNamesDiffer, RowsKeyed, OpenILinkOK, TelegramOK, WebOK, CodexOK, ValidateCodex;
      var overrides := TrimEach(value.overrides);
      var prompts := TrimEach(value.prompts);
      var clean := value.(
        binary := TrimSpace(value.binary), promptsFile := TrimSpace(value.promptsFile),
        successMessage := TrimSpace(value.successMessage), reasoningEffort := TrimSpace(value.reasoningEffort),
        overrides := overrides, prompts := prompts, promptsPersisted := true);
      var ok := CheckCodex(clean);
      if !ok { return Rejected(Invalid); }
      ValidCodexIsOK(clean);
      var tx := db.(codex := Section(clean, db.codex.revision + 1));
      db := BumpRevision(tx);
      var snapshot := Load();
      return Stored((), snapshot.value);
    }

    method UpdateWeb(value: WebConfig) returns (r: Written<()>)
      requires Kept(db)
      modifies this
      ensures match r
        case Stored(_, snapshot) =>
          && ValidateWeb(CleanWeb(value)) && Kept(db) && Reads(snapshot, db)
          && db == old(db).(web := Section(CleanWeb(value), old(db).web.revision + 1), revision := old(db).revision + 1)
        case Rejected(Invalid) => !ValidateWeb(CleanWeb(value)) && db == old(db)
        case Rejected(_) => false
    {
      hide Reads, TargetOK, RowNamesDiffer, RowsKeyed, OpenILinkOK, TelegramOK, CodexOK;
      var proxies := TrimEach(value.trustedProxies);
      var clean := value.(listenAddress := TrimSpace(value.listenAddress), trustedProxies := proxies);
      var ok := CheckWeb(clean);
      if !ok { return Rejected(Invalid); }
      var tx := db.(web := Section(clean, db.web.revision + 1));
      db := BumpRevision(tx);
      var snapshot := Load();
      return Stored((), snapshot.value);
    }

    method UpdateOpenILink(value: OpenILinkConfig, token: Option<string>) returns (r: Written<()>)
      requires Kept(db)
      modifies this
      ensures var clean := CleanOpenILink(value, old(db).openILink.value.token, token);
        match r
        case Stored(_, snapshot) =>
          && ValidateOpenILink(clean) && Kept(db) && Reads(snapshot, db)
          && db == old(db).(openILink := Section(clean, old(db).openILink.revision + 1),
                            revision := old(db).revision + 1)
        case Rejected(Invalid) => !ValidateOpenILink(clean) && db == old(db)
        case Rejected(_) => false
    {
      hide Reads, TargetOK, RowNamesDiffer, RowsKeyed, TelegramOK, CodexOK, WebOK;
      var users := TrimEach(value.allowedUserIDs);
      var tx := db;
      var currentToken := tx.openILink.value.token;
      if token.Some? {
        var trimmed := TrimSpace(token.value);
        if trimmed != "" || token.value == "" { currentToken := trimmed; }
      }
      var clean := value.(
        baseURL := TrimSlashes(TrimSpace(value.baseURL)), allowedUserIDs := users, token := currentToken);
      var ok := CheckOpenILink(clean);
      if !ok { return Rejected(Invalid); }
      tx := tx.(openILink := Section(clean, tx.openILink.revision + 1));
      db := BumpRevision(tx);
      var snapshot := Load();
      return Stored((), snapshot.value);
    }

    method UpdateTelegram(value: TelegramConfig, token: Option<string>) returns (r: Written<()>)
      requires Kept(db)
      modifies this
      ensures var clean := CleanTelegram(value, old(db).telegram.value.token, token);
        match r
        case Stored(_, snapshot) =>
          && ValidateTelegram(clean) && Kept(db) && Reads(snapshot, db)
          && db == old(db).(telegram := Section(clean, old(db).telegram.revision + 1), revision := old(db).revision + 1)
        case Rejected(Invalid) => !ValidateTelegram(clean) && db == old(db)
        case Rejected(_) => false
    {
      hide Reads, TargetOK, RowNamesDiffer, RowsKeyed, OpenILinkOK, CodexOK, WebOK;
      var users := TrimEach(value.allowedUserIDs);
      var tx := db;
      var currentToken := tx.telegram.value.token;
      if token.Some? { currentToken := TrimSpace(token.value); }
      var clean := value.(
        baseURL := TrimSlashes(TrimSpace(value.baseURL)), allowedUserIDs := users, token := currentToken);
      var ok := CheckTelegram(clean);
      if !ok { return Rejected(Invalid); }
      tx := tx.(telegram := Section(clean, tx.telegram.revision + 1));
      db := BumpRevision(tx);
      var snapshot := Load();
      return Stored((), snapshot.value);
    }

    // ---------------------------------------------------------------- the administrator

    // `hash` is what hashing the password with a new salt gives.
    method SetupAdmin(username: string, password: string, hash: string) returns (r: Written<()>)
      requires Kept(db)
      modifies this
      ensures match r
        case Stored(_, snapshot) =>
          && TrimSpace(username) != "" && |password| >= MINIMUM_PASSWORD && old(db).admin.None?
          && db == old(db).(admin := Some(Account(TrimSpace(username), hash)), suggested := TrimSpace(username),
                            revision := old(db).revision + 1)
          && Kept(db) && Reads(snapshot, db)
        case Rejected(Invalid) => (TrimSpace(username) == "" || |password| < MINIMUM_PASSWORD) && db == old(db)
        case Rejected(AlreadySetup) =>
          && TrimSpace(username) != "" && |password| >= MINIMUM_PASSWORD && db.admin.Some? && db == old(db)
        case Rejected(_) => false
    {
      hide Reads, TargetOK, RowNamesDiffer, RowsKeyed, OpenILinkOK, TelegramOK, CodexOK, WebOK;
      var name := TrimSpace(username);
      if name == "" || |password| < MINIMUM_PASSWORD { return Rejected(Invalid); }
      var tx := db;
      if tx.admin.Some? { return Rejected(AlreadySetup); }
      tx := tx.(admin := Some(Account(name, hash)), suggested := name);
      db := BumpRevision(tx);
      var snapshot := Load();
      return Stored((), snapshot.value);
    }

    // `newHash` is what hashing the new password gives, if there is one.
    method UpdateAccount(username: string, newPassword: string, newHash: string) returns (r: Written<()>)
      requires Kept(db)
      modifies this
      ensures match r
        case Stored(_, snapshot) =>
          && TrimSpace(username) != "" && (newPassword == "" || |newPassword| >= MINIMUM_PASSWORD)
          && old(db).admin.Some?
          && db == old(db).(
               admin := Some(Account(
                 TrimSpace(username), if newPassword == "" then old(db).admin.value.hash else newHash)),
               suggested := TrimSpace(username), revision := old(db).revision + 1)
          && Kept(db) && Reads(snapshot, db)
        case Rejected(Invalid) =>
          && (TrimSpace(username) == "" || 0 < |newPassword| < MINIMUM_PASSWORD) && db == old(db)
        case Rejected(NotFound) => db.admin.None? && db == old(db)
        case Rejected(_) => false
    {
      hide Reads, TargetOK, RowNamesDiffer, RowsKeyed, OpenILinkOK, TelegramOK, CodexOK, WebOK;
      var name := TrimSpace(username);
      if name == "" { return Rejected(Invalid); }
      if newPassword != "" && |newPassword| < MINIMUM_PASSWORD { return Rejected(Invalid); }
      var tx := db;
      if tx.admin.None? { return Rejected(NotFound); }
      var hash := if newPassword == "" then tx.admin.value.hash else newHash;
      tx := tx.(admin := Some(Account(name, hash)), suggested := name);
      db := BumpRevision(tx);
      var snapshot := Load();
      return Stored((), snapshot.value);
    }
  }
}
