/** The configuration's sections, what makes them valid one at a time, and what makes the whole valid. */
module Configuration {
  import opened Text
  import opened Targets

  // The `enabled` fields are explicit throughout, as they are in every configuration that comes from the database.
  datatype OpenILinkConfig = OpenILinkConfig(
    enabled: bool, baseURL: string, token: string, allowedUserIDs: seq<string>, httpTimeout: int)

  datatype TelegramConfig = TelegramConfig(
    enabled: bool, baseURL: string, token: string, allowedUserIDs: seq<string>, httpTimeout: int, pollTimeout: int)

  datatype CodexConfig = CodexConfig(
    binary: string, promptsFile: string, prompts: seq<string>, promptsPersisted: bool, requestTimeout: int,
    retryMin: int, retryMax: int, keepaliveMin: int, keepaliveMax: int, maxParallel: int, successMessage: string,
    reasoningEffort: string, overrides: seq<string>)

  datatype WebConfig = WebConfig(
    listenAddress: string, cookieSecure: bool, trustedProxies: seq<string>, activityLimit: int)

  datatype Config = Config(
    openILink: OpenILinkConfig, telegram: TelegramConfig, codex: CodexConfig, web: WebConfig, targets: seq<Target>)

  // Which strings are absolute http(s) URLs, listen addresses, and IP addresses or CIDR blocks is left to the standard
  // library: nothing below depends on it.
  const IS_HTTP_URL: string -> bool
  const IS_LISTEN_ADDRESS: string -> bool
  const IS_ADDRESS_OR_CIDR: string -> bool

  // ---------------------------------------------------------------- the whole configuration

  predicate OverridesOK(overrides: seq<string>) {
    forall o <- overrides :: TrimSpace(o) != "" && '=' in o
  }

  predicate OpenILinkOK(c: OpenILinkConfig) {
    c.enabled ==> IS_HTTP_URL(c.baseURL) && TrimSpace(c.token) != "" && c.httpTimeout > 0
  }

  predicate TelegramOK(c: TelegramConfig) {
    c.enabled ==>
      && IS_HTTP_URL(c.baseURL) && TrimSpace(c.token) != ""
      && c.httpTimeout > 0 && c.pollTimeout > 0 && c.httpTimeout > c.pollTimeout
  }

  predicate CodexOK(c: CodexConfig) {
    && TrimSpace(c.binary) != "" && c.requestTimeout > 0
    && 1 <= c.retryMin <= c.retryMax && 1 <= c.keepaliveMin <= c.keepaliveMax
    && c.maxParallel > 0
    && OverridesOK(c.overrides)
  }

  predicate WebOK(c: WebConfig) {
    c.activityLimit >= 0
  }

  predicate NameOK(name: string) {
    && name != "" && ToLower(name) != "all" && ToLower(name) != "全部"
    && forall c <- name :: !IsSpace(c) && c !in ",，;；"
  }

  predicate TargetOK(t: Target) {
    && NameOK(t.name) && IS_HTTP_URL(t.baseURL) && t.apiKey != "" && t.model != "" && t.wireAPI == "responses"
    && OverridesOK(t.overrides)
  }

  // Two targets must differ in more than letter case.
  ghost predicate NamesDiffer(targets: seq<Target>) {
    forall i, j :: 0 <= i < j < |targets| ==> ToLower(targets[i].name) != ToLower(targets[j].name)
  }

  // What validate accepts.
  ghost predicate ValidConfig(c: Config, allowEmptyTargets: bool) {
    && OpenILinkOK(c.openILink) && TelegramOK(c.telegram) && CodexOK(c.codex) && WebOK(c.web)
    && (c.targets == [] ==> allowEmptyTargets)
    && (forall t <- c.targets :: TargetOK(t)) && NamesDiffer(c.targets)
  }

  // An earlier target's name differs from this one's at most in letter case.
  ghost predicate HasNamesake(targets: seq<Target>, index: nat)
    requires index < |targets|
  {
    exists i | 0 <= i < index :: ToLower(targets[i].name) == ToLower(targets[index].name)
  }

  datatype Problem =
    | OpenILinkProblem | TelegramProblem | CodexProblem | NoTargets | WebProblem
    | TargetProblem(index: nat)    // this target is not valid by itself
    | DuplicateProblem(index: nat)  // an earlier target has this target's name

  // validate's loop over the targets, remembering their names; the first that is wrong is named
  method ValidateTargets(targets: seq<Target>) returns (problem: Option<Problem>)
    ensures problem.None? <==> (forall t <- targets :: TargetOK(t)) && NamesDiffer(targets)
    ensures problem.Some? ==>
      && (problem.value.TargetProblem? || problem.value.DuplicateProblem?) && problem.value.index < |targets|
      && (forall t <- targets[..problem.value.index] :: TargetOK(t)) && NamesDiffer(targets[..problem.value.index])
      && if problem.value.TargetProblem? then !TargetOK(targets[problem.value.index])
         else HasNamesake(targets, problem.value.index)
  {
    hide ToLower, NameOK, OverridesOK;
    var seen := {};
    for i := 0 to |targets|
      invariant forall j :: 0 <= j < i ==> TargetOK(targets[j]) && ToLower(targets[j].name) in seen
      invariant forall key <- seen :: exists j :: 0 <= j < i && ToLower(targets[j].name) == key
      invariant forall j, l :: 0 <= j < l < i ==> ToLower(targets[j].name) != ToLower(targets[l].name)
    {
      var t := targets[i];
      assert t in targets;
      if !NameOK(t.name) { return Some(TargetProblem(i)); }
      var key := ToLower(t.name);
      if key in seen { return Some(DuplicateProblem(i)); }
      seen := seen + {key};
      if !TargetOK(t) { return Some(TargetProblem(i)); }
      assert ToLower(targets[i].name) == key;
    }
    return None;
  }

  // validate: first the sections, then the targets
  method Validate(c: Config, allowEmptyTargets: bool) returns (problem: Option<Problem>)
    ensures problem.None? <==> ValidConfig(c, allowEmptyTargets)
  {
    hide OpenILinkOK, TelegramOK, CodexOK, WebOK, TargetOK, NamesDiffer;
    if !OpenILinkOK(c.openILink) { return Some(OpenILinkProblem); }
    if !TelegramOK(c.telegram) { return Some(TelegramProblem); }
    if !CodexOK(c.codex) { return Some(CodexProblem); }
    if !allowEmptyTargets && |c.targets| == 0 { return Some(NoTargets); }
    if !WebOK(c.web) { return Some(WebProblem); }
    problem := ValidateTargets(c.targets);
  }

  // ---------------------------------------------------------------- one section at a time

  // DefaultDatabaseConfig
  const DEFAULT := Config(
    OpenILinkConfig(false, "http://127.0.0.1:9800", "", [], 15),
    TelegramConfig(false, "https://api.telegram.org", "", [], 45, 30),
    CodexConfig("codex", "prompts.txt", [], false, 180, 3, 8, 2700, 3300, 2, "开蹬", "low", []),
    WebConfig(":8080", false, [], 200), [])

  // A first installation starts from a configuration that is valid.
  lemma DefaultIsValid()
    ensures ValidConfig(DEFAULT, true)
  {
    assert TrimSpace("codex") == "codex";
  }

  // Each section is checked in place of the default's.
  ghost predicate ValidateTarget(t: Target) {
    t.sortOrder >= 0 && ValidConfig(DEFAULT.(targets := [t]), true)
  }

  ghost predicate ValidateCodex(c: CodexConfig) {
    && TrimSpace(c.promptsFile) != "" && TrimSpace(c.successMessage) != "" && TrimSpace(c.reasoningEffort) != ""
    && (c.promptsPersisted ==> c.prompts != [])
    && (forall p <- c.prompts :: TrimSpace(p) != "")
    && Normalize(c.reasoningEffort) in {"low", "medium", "high", "xhigh"}
    && ValidConfig(DEFAULT.(codex := c), true)
  }

  ghost predicate ValidateOpenILink(c: OpenILinkConfig) {
    && IS_HTTP_URL(TrimSlashes(TrimSpace(c.baseURL))) && c.httpTimeout > 0
    && ValidConfig(DEFAULT.(openILink := c), true)
  }

  ghost predicate ValidateTelegram(c: TelegramConfig) {
    && IS_HTTP_URL(TrimSlashes(TrimSpace(c.baseURL)))
    && c.httpTimeout > 0 && c.pollTimeout > 0 && c.httpTimeout > c.pollTimeout
    && ValidConfig(DEFAULT.(telegram := c), true)
  }

  ghost predicate ValidateWeb(c: WebConfig) {
    && TrimSpace(c.listenAddress) != "" && IS_LISTEN_ADDRESS(TrimSpace(c.listenAddress))
    && (forall p <- c.trustedProxies :: TrimSpace(p) == "*" || IS_ADDRESS_OR_CIDR(TrimSpace(p)))
    && ValidConfig(DEFAULT.(web := c), true)
  }

  // What a section's check is worth by itself: the default configuration hides nothing and adds nothing.
  lemma TargetCheckedAlone(t: Target)
    ensures ValidateTarget(t) <==> t.sortOrder >= 0 && TargetOK(t)
  {
    DefaultIsValid();
    var c := DEFAULT.(targets := [t]);
    assert t in c.targets;
  }

  // Sections that were accepted one at a time make up a configuration that is accepted as a whole, if and only if no
  // two target names differ in letter case alone.
  lemma SectionsCompose(c: Config)
    requires ValidateOpenILink(c.openILink) && ValidateTelegram(c.telegram)
    requires ValidateCodex(c.codex) && ValidateWeb(c.web)
    requires forall t <- c.targets :: ValidateTarget(t)
    ensures ValidConfig(c, true) <==> NamesDiffer(c.targets)
  {
    forall t <- c.targets ensures TargetOK(t) { TargetCheckedAlone(t); }
  }

  // ValidateTarget and its kin, as the handlers and the store call them.
  method CheckTarget(t: Target) returns (ok: bool)
    ensures ok <==> t.sortOrder >= 0 && TargetOK(t)
  {
    TargetCheckedAlone(t);
    if t.sortOrder < 0 { return false; }
    var problem := Validate(DEFAULT.(targets := [t]), true);
    return problem.None?;
  }

  method CheckCodex(c: CodexConfig) returns (ok: bool)
    ensures ok <==> ValidateCodex(c)
  {
    if TrimSpace(c.promptsFile) == "" || TrimSpace(c.successMessage) == "" || TrimSpace(c.reasoningEffort) == "" {
      return false;
    }
    if c.promptsPersisted && |c.prompts| == 0 { return false; }
    for i := 0 to |c.prompts|
      invariant forall p <- c.prompts[..i] :: TrimSpace(p) != ""
    {
      if TrimSpace(c.prompts[i]) == "" {
        assert c.prompts[i] in c.prompts;
        return false;
      }
    }
    assert c.prompts[..|c.prompts|] == c.prompts;
    if Normalize(c.reasoningEffort) !in {"low", "medium", "high", "xhigh"} { return false; }
    var problem := Validate(DEFAULT.(codex := c), true);
    return problem.None?;
  }

  method CheckOpenILink(c: OpenILinkConfig) returns (ok: bool)
    ensures ok <==> ValidateOpenILink(c)
  {
    if !IS_HTTP_URL(TrimSlashes(TrimSpace(c.baseURL))) || c.httpTimeout <= 0 { return false; }
    var problem := Validate(DEFAULT.(openILink := c), true);
    return problem.None?;
  }

  method CheckTelegram(c: TelegramConfig) returns (ok: bool)
    ensures ok <==> ValidateTelegram(c)
  {
    if !IS_HTTP_URL(TrimSlashes(TrimSpace(c.baseURL))) { return false; }
    if c.httpTimeout <= 0 || c.pollTimeout <= 0 || c.httpTimeout <= c.pollTimeout { return false; }
    var problem := Validate(DEFAULT.(telegram := c), true);
    return problem.None?;
  }

  method CheckWeb(c: WebConfig) returns (ok: bool)
    ensures ok <==> ValidateWeb(c)
  {
    if TrimSpace(c.listenAddress) == "" || !IS_LISTEN_ADDRESS(TrimSpace(c.listenAddress)) { return false; }
    for i := 0 to |c.trustedProxies|
      invariant forall p <- c.trustedProxies[..i] :: TrimSpace(p) == "*" || IS_ADDRESS_OR_CIDR(TrimSpace(p))
    {
      var proxy := TrimSpace(c.trustedProxies[i]);
      if proxy == "*" || IS_ADDRESS_OR_CIDR(proxy) { continue; }
      assert c.trustedProxies[i] in c.trustedProxies;
      return false;
    }
    assert c.trustedProxies[..|c.trustedProxies|] == c.trustedProxies;
    var problem := Validate(DEFAULT.(web := c), true);
    return problem.None?;
  }

  // ---------------------------------------------------------------- where the limits lie

  const URL := "http://a"

  function TelegramWith(enabled: bool, token: string, httpTimeout: int, pollTimeout: int): Config {
    DEFAULT.(telegram := TelegramConfig(enabled, URL, token, [], httpTimeout, pollTimeout))
  }

  function OpenILinkWith(enabled: bool, token: string, httpTimeout: int): Config {
    DEFAULT.(openILink := OpenILinkConfig(enabled, URL, token, [], httpTimeout))
  }

  function CodexWith(retryMin: int, retryMax: int, keepaliveMin: int, keepaliveMax: int, maxParallel: int): Config {
    DEFAULT.(codex := DEFAULT.codex.(
      retryMin := retryMin, retryMax := retryMax, keepaliveMin := keepaliveMin, keepaliveMax := keepaliveMax,
      maxParallel := maxParallel))
  }

  function TargetWith(name: string, key: string, wireAPI: string, overrides: seq<string>): Config {
    DEFAULT.(targets := [Target(1, 0, name, URL, key, "m", wireAPI, overrides)])
  }

  // The polling of Telegram must end before its HTTP timeout, and an adapter that is enabled needs a token.
  lemma AdapterLimits()
    requires IS_HTTP_URL(URL)
    ensures ValidConfig(TelegramWith(true, "t", 31, 30), true) && !ValidConfig(TelegramWith(true, "t", 30, 30), true)
    ensures !ValidConfig(TelegramWith(true, "t", 30, 31), true) && !ValidConfig(TelegramWith(true, "t", 1, 0), true)
    ensures ValidConfig(TelegramWith(true, "t", 2, 1), true) && !ValidConfig(TelegramWith(true, " ", 31, 30), true)
    ensures ValidConfig(TelegramWith(false, "", 0, 0), true) && ValidConfig(OpenILinkWith(false, "", 0), true)
    ensures ValidConfig(OpenILinkWith(true, "t", 1), true) && !ValidConfig(OpenILinkWith(true, "t", 0), true)
    ensures !ValidConfig(OpenILinkWith(true, " ", 1), true)
    ensures ValidateTelegram(TelegramWith(true, "t", 31, 30).telegram)
    ensures !ValidateTelegram(TelegramWith(false, "", 30, 30).telegram)
    ensures !ValidateTelegram(TelegramWith(false, "", 1, 0).telegram)
    ensures ValidateOpenILink(OpenILinkWith(true, "t", 1).openILink)
    ensures !ValidateOpenILink(OpenILinkWith(false, "", 0).openILink)
  {
    DefaultIsValid();
    assert TrimSpace("t") == "t" && TrimSpace(" ") == "";
    assert TrimSpace(URL) == URL && TrimSlashes(URL) == URL;
  }

  // Intervals are at least a second long and not upside down, and at least one call is let in at a time.
  lemma CodexLimits()
    ensures ValidConfig(CodexWith(1, 1, 1, 1, 1), true) && !ValidConfig(CodexWith(0, 1, 1, 1, 1), true)
    ensures !ValidConfig(CodexWith(2, 1, 1, 1, 1), true) && !ValidConfig(CodexWith(1, 1, 0, 1, 1), true)
    ensures !ValidConfig(CodexWith(1, 1, 2, 1, 1), true) && !ValidConfig(CodexWith(1, 1, 1, 1, 0), true)
    ensures !ValidConfig(DEFAULT.(codex := DEFAULT.codex.(requestTimeout := 0)), true)
    ensures ValidConfig(DEFAULT.(codex := DEFAULT.codex.(requestTimeout := 1)), true)
    ensures !ValidConfig(DEFAULT.(codex := DEFAULT.codex.(binary := " ")), true)
    ensures !ValidConfig(DEFAULT.(codex := DEFAULT.codex.(overrides := ["a"])), true)
    ensures ValidConfig(DEFAULT.(codex := DEFAULT.codex.(overrides := ["a=b"])), true)
    ensures !ValidConfig(DEFAULT.(web := DEFAULT.web.(activityLimit := -1)), true)
    ensures ValidConfig(DEFAULT.(web := DEFAULT.web.(activityLimit := 0)), true)
    ensures !ValidConfig(DEFAULT, false)
  {
    DefaultIsValid();
    assert TrimSpace("codex") == "codex" && TrimSpace(" ") == "";
    assert "a=b"[1] == '=' && TrimSpace("a=b") == "a=b";
    assert "a" in ["a"];
  }

  // The console needs an address to listen on, ...
  lemma ListenLimits(web: WebConfig)
    requires web == DEFAULT.web.(listenAddress := " :1 ") && IS_LISTEN_ADDRESS(":1") && !IS_LISTEN_ADDRESS(":x")
    ensures ValidateWeb(web) && !ValidateWeb(web.(activityLimit := -1))
    ensures !ValidateWeb(web.(listenAddress := " ")) && !ValidateWeb(web.(listenAddress := ":x"))
  {
    DefaultIsValid();
    hide OpenILinkOK, TelegramOK, CodexOK;
    assert TrimSpace(" :1 ") == ":1" && TrimSpace(" ") == "" && TrimSpace(":x") == ":x";
  }

  // ... and trusts proxies it is given by address, or all of them.
  lemma ProxyLimits(web: WebConfig)
    requires ValidateWeb(web) && IS_ADDRESS_OR_CIDR("::1") && !IS_ADDRESS_OR_CIDR("x")
    ensures ValidateWeb(web.(trustedProxies := ["*", " ::1"]))
    ensures !ValidateWeb(web.(trustedProxies := ["*", "x"]))
  {
    hide OpenILinkOK, TelegramOK, CodexOK;
    assert TrimSpace("*") == "*" && TrimSpace(" ::1") == "::1" && TrimSpace("x") == "x";
    assert ["*", "x"][1] == "x";
  }

  // A target has a name that is not one of the words for all, whatever its case...
  lemma NameLimits()
    ensures NameOK("a") && !NameOK("") && !NameOK("aLL") && !NameOK("*,")
    ensures UNICODE_LOWER('全') == '全' && UNICODE_LOWER('部') == '部' ==> !NameOK("全部")
  {
    assert |ToLower("a")| == 1 && ToLower("aLL") == "all";
    assert "*,"[1] == ',' && ',' in "*,";
    assert UNICODE_LOWER('全') == '全' && UNICODE_LOWER('部') == '部' ==> ToLower("全部") == "全部";
  }

  // ... and holds neither white space nor a list separator, ...
  lemma NamesHaveNoSeparators(name: string, i: nat)
    requires i < |name| && (IsSpace(name[i]) || name[i] == ',' || name[i] == '，' || name[i] == ';' || name[i] == '；')
    ensures !NameOK(name)
  {
    assert name[i] in name;
  }

  // ... a key, the one wire API there is, and overrides that are assignments; and no other target has its name.
  lemma TargetLimits(name: string)
    requires IS_HTTP_URL(URL)
    ensures ValidConfig(TargetWith("a", "k", "responses", []), false)
    ensures !NameOK(name) ==> !ValidConfig(TargetWith(name, "k", "responses", []), false)
    ensures !ValidConfig(TargetWith("a", "", "responses", []), false)
    ensures !ValidConfig(TargetWith("a", "k", "chat", []), false)
    ensures !ValidConfig(TargetWith("a", "k", "responses", ["x"]), false)
    ensures !ValidConfig(DEFAULT.(targets := [Target(1, 0, "a", URL, "k", "", "responses", [])]), false)
  {
    hide OpenILinkOK, TelegramOK, CodexOK, WebOK, NameOK, TrimSpace, ToLower;
    DefaultIsValid();
    NameLimits();
    assert "x" in ["x"];
    forall n, k, w, o ensures TargetWith(n, k, w, o).targets[0] in TargetWith(n, k, w, o).targets {}
    var blank := Target(1, 0, "a", URL, "k", "", "responses", []);
    assert blank in [blank];
  }

  lemma NamesakesAreRefused(t: Target, u: Target)
    requires t.name == "a" && u.name == "A"
    ensures !ValidConfig(DEFAULT.(targets := [t, u]), true)
  {
    hide OpenILinkOK, TelegramOK, CodexOK, WebOK, TargetOK;
    assert ToLower("A") == ToLower("a");
    assert ToLower([t, u][0].name) == ToLower([t, u][1].name);
  }

  // What is asked of a codex section when it is saved, beyond that: a reasoning effort that is one of four words, ...
  lemma EffortLimits(c: CodexConfig)
    requires c.reasoningEffort == "" || c.reasoningEffort == "extreme"
    ensures !ValidateCodex(c)
  {
    if c.reasoningEffort == "" { assert TrimSpace("") == ""; }
    else {
      assert TrimSpace("extreme") == "extreme";
      assert |Normalize(c.reasoningEffort)| == 7;
    }
  }

  lemma EffortsAreFolded()
    ensures ValidateCodex(DEFAULT.codex.(reasoningEffort := "HIGH"))
  {
    DefaultIsValid();
    assert TrimSpace("HIGH") == "HIGH" && ToLower("HIGH") == "high";
    assert TrimSpace("prompts.txt") == "prompts.txt" && TrimSpace(DEFAULT.codex.successMessage) != "";
  }

  // ... and a prompts file, a success message and prompts that are not blank.
  lemma PromptLimits(c: CodexConfig)
    requires
      || c.promptsFile == " " || c.successMessage == " " || (c.promptsPersisted && c.prompts == [])
      || exists p <- c.prompts :: p == " "
    ensures !ValidateCodex(c)
  {
    assert TrimSpace(" ") == "";
  }

  // ---------------------------------------------------------------- normalization

  function Trimmed(values: seq<string>): seq<string> {
    seq(|values|, i requires 0 <= i < |values| => TrimSpace(values[i]))
  }

  // The loops that trim a list's elements in place.
  method TrimEach(values: seq<string>) returns (r: seq<string>)
    ensures r == Trimmed(values)
  {
    r := values;
    for i := 0 to |r|
      invariant |r| == |values|
      invariant forall j :: 0 <= j < |r| ==> r[j] == if j < i then TrimSpace(values[j]) else values[j]
    {
      r := r[i := TrimSpace(r[i])];
    }
  }

  // cleanStrings: the elements trimmed, without those that were nothing but spaces
  function CleanStrings(values: seq<string>): (r: seq<string>)
    ensures Trimmed(r) == r && "" !in r
  {
    if values == [] then []
    else
      var front, last := CleanStrings(values[..|values| - 1]), TrimSpace(values[|values| - 1]);
      assert TrimSpace(last) == last by { TrimIdempotent(values[|values| - 1]); }
      if last == "" then front else front + [last]
  }

  // Cleaning goes element by element, and keeps their order.
  lemma CleaningOne(value: string)
    ensures CleanStrings([value]) == if TrimSpace(value) == "" then [] else [TrimSpace(value)]
  {
    hide TrimSpace;
    assert [value][..0] == [];
  }

  lemma {:induction false} CleaningIsElementwise(values: seq<string>, more: seq<string>)
    ensures CleanStrings(values + more) == CleanStrings(values) + CleanStrings(more)
  {
    hide TrimSpace, Trimmed;
    if more == [] { assert values + more == values; }
    else {
      var all, front, last := values + more, more[..|more| - 1], TrimSpace(more[|more| - 1]);
      assert all[..|all| - 1] == values + front && all[|all| - 1] == more[|more| - 1];
      CleaningIsElementwise(values, front);
      var cleaned := CleanStrings(values + front);
      assert CleanStrings(all) == if last == "" then cleaned else cleaned + [last];
    }
  }

  method CleanEach(values: seq<string>) returns (r: seq<string>)
    ensures r == CleanStrings(values)
  {
    r := [];
    for i := 0 to |values|
      invariant r == CleanStrings(values[..i])
    {
      assert values[..i + 1][..i] == values[..i];
      var value := TrimSpace(values[i]);
      if value != "" { r := r + [value]; }
    }
    assert values[..|values|] == values;
  }

  function Normalized(t: Target): Target {
    t.(name := TrimSpace(t.name), baseURL := TrimSlashes(TrimSpace(t.baseURL)), apiKey := TrimSpace(t.apiKey),
       model := TrimSpace(t.model),
       wireAPI := if Normalize(t.wireAPI) == "" then "responses" else Normalize(t.wireAPI),
       overrides := Trimmed(t.overrides))
  }

  // A target without a wire API gets the one there is, in whatever case it is named; any other stays and is refused.
  lemma WireAPIDefaults(t: Target)
    ensures Normalized(t).wireAPI == "responses" <==> Normalize(t.wireAPI) == "" || Normalize(t.wireAPI) == "responses"
    ensures Normalized(t).wireAPI != "responses" ==> Normalized(t).wireAPI == Normalize(t.wireAPI)
  {
    hide Normalize, TrimSpace, TrimSlashes;
  }

  // NormalizeTarget
  method NormalizeTarget(target: Target) returns (t: Target)
    ensures t == Normalized(target)
  {
    t := target;
    t := t.(name := TrimSpace(t.name), baseURL := TrimSlashes(TrimSpace(t.baseURL)), apiKey := TrimSpace(t.apiKey),
            model := TrimSpace(t.model), wireAPI := ToLower(TrimSpace(t.wireAPI)));
    if t.wireAPI == "" { t := t.(wireAPI := "responses"); }
    var overrides := TrimEach(t.overrides);
    t := t.(overrides := overrides);
  }

  // The key a target is filed under does not depend on whether its name has been normalized.
  lemma NormalizingKeepsTheKey(t: Target)
    ensures Normalize(Normalized(t).name) == Normalize(t.name)
  {
    TrimIdempotent(t.name);
  }

  // For a valid name the key is the name in lower case, as validate forms it.
  lemma KeyOfValidName(name: string)
    requires NameOK(name)
    ensures TrimSpace(name) == name && Normalize(name) == ToLower(name)
  {
    assert name[0] in name && name[|name| - 1] in name;
    assert TrimLeft(name) == name;
    assert TrimRight(name) == name;
  }
}
