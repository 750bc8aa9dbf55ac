/**
 Hot reload of the message adapters. A reload bumps the generation, takes the old clients out, and installs new ones;
 goroutines that forward a client's status to the shared status run on meanwhile, also those of earlier generations.
 */
module AdapterReload {
  import opened Text
  import opened StatusStores

  datatype Which = OpenILink | Telegram

  datatype Update = Update(state: Status, error: string)

  const DISABLED := Update(Disabled, "")
  const CONNECTING := Update(Connecting, "")

  // What the shared status has been set to, and the client that is installed. `base` and `forwarder` are history: how
  // much had been written at the last bump of the generation, and which goroutine forwards for the client.
  datatype Adapter = Adapter(client: Option<nat>, proxy: Option<nat>, status: seq<Update>, base: nat, forwarder: nat) {
    function Since(): seq<Update>
      requires base <= |status|
    {
      status[base..]
    }

    function Show(update: Update): Adapter {
      this.(status := status + [update])
    }
  }

  // A forwardStatus goroutine: `start` is the place in its client's statuses at which it subscribed, and it has passed
  // on `written` of them from there.
  datatype Forwarder = Forwarder(
    which: Which, generation: nat, client: nat, start: Option<nat>, written: nat, running: bool)

  // Where the default proxy leads.
  datatype Route = Nowhere | ToOpenILink | ToTelegram

  // Which adapters a configuration enables, with a token.
  datatype Plan = Plan(open: bool, telegram: bool)

  // How far the reload that holds reloadMu has come.
  datatype Phase =
    | Idle | Bumped | Unproxied | OpenDisabled | BothDisabled | OpenShown | OpenInstalled | TelegramShown

  // `clients`: for every client ever made, the statuses of its own store.
  datatype Runtime = Runtime(
    generation: nat, open: Adapter, telegram: Adapter, route: Route, plan: Plan, phase: Phase,
    clients: seq<seq<Update>>, forwarders: seq<Forwarder>)

  // ---------------------------------------------------------------- the reload itself

  // Reload or Close takes reloadMu and, under mu, bumps the generation and removes the clients.
  function Begin(s: Runtime, plan: Plan): Runtime
    requires s.phase == Idle
  {
    s.(generation := s.generation + 1, plan := plan, phase := Bumped,
       open := s.open.(client := None, base := |s.open.status|),
       telegram := s.telegram.(client := None, base := |s.telegram.status|))
  }

  // A new client is shown: proxy, default proxy and status.
  function Shown(a: Adapter, client: nat): Adapter {
    a.(proxy := Some(client)).Show(CONNECTING)
  }

  // A client is installed and its forwarder started.
  function Installed(a: Adapter, forwarder: nat): Adapter {
    a.(client := a.proxy, forwarder := forwarder)
  }

  function FirstEnabled(s: Runtime, afterOpen: bool, initial: Update): Runtime {
    if s.plan.open && !afterOpen then
      s.(phase := OpenShown, open := Shown(s.open, |s.clients|), route := ToOpenILink,
         clients := s.clients + [[initial]])
    else if s.plan.telegram then
      s.(phase := TelegramShown, telegram := Shown(s.telegram, |s.clients|),
         route := if s.route == Nowhere then ToTelegram else s.route, clients := s.clients + [[initial]])
    else s.(phase := Idle)
  }

  // The reload goes on to its next write. `initial` is the first status of a client it makes.
  function Advance(s: Runtime, initial: Update): Runtime
    requires s.phase != Idle
    requires (s.phase == OpenShown ==> s.open.proxy.Some?) && (s.phase == TelegramShown ==> s.telegram.proxy.Some?)
  {
    match s.phase
    case Bumped =>
      s.(phase := Unproxied, open := s.open.(proxy := None), telegram := s.telegram.(proxy := None), route := Nowhere)
    case Unproxied => s.(phase := OpenDisabled, open := s.open.Show(DISABLED))
    case OpenDisabled => s.(phase := BothDisabled, telegram := s.telegram.Show(DISABLED))
    case BothDisabled => FirstEnabled(s, false, initial)
    case OpenShown =>
      s.(phase := OpenInstalled, open := Installed(s.open, |s.forwarders|),
         forwarders := s.forwarders + [Forwarder(OpenILink, s.generation, s.open.proxy.value, None, 0, true)])
    case OpenInstalled => FirstEnabled(s, true, initial)
    case TelegramShown =>
      s.(phase := Idle, telegram := Installed(s.telegram, |s.forwarders|),
         forwarders := s.forwarders + [Forwarder(Telegram, s.generation, s.telegram.proxy.value, None, 0, true)])
    case Idle => s
  }

  // ---------------------------------------------------------------- forwarders and clients

  function AdapterOf(s: Runtime, which: Which): Adapter {
    if which == OpenILink then s.open else s.telegram
  }

  // The test of setStatusIfCurrent.
  predicate IsCurrent(s: Runtime, f: Forwarder) {
    f.generation == s.generation && AdapterOf(s, f.which).client == Some(f.client)
  }

  // The forwarder subscribes to its client's store, at the status it has now.
  function Subscribed(s: Runtime, n: nat): Runtime
    requires n < |s.forwarders| && s.forwarders[n].client < |s.clients| && s.clients[s.forwarders[n].client] != []
  {
    var f := s.forwarders[n];
    s.(forwarders := s.forwarders[n := f.(start := Some(|s.clients[f.client]| - 1))])
  }

  // Another status of its client reaches the forwarder: setStatusIfCurrent.
  function Forwarded(s: Runtime, n: nat): Runtime
    requires n < |s.forwarders| && s.forwarders[n].start.Some? && s.forwarders[n].client < |s.clients|
    requires s.forwarders[n].start.value + s.forwarders[n].written < |s.clients[s.forwarders[n].client]|
  {
    var f := s.forwarders[n];
    var update := s.clients[f.client][f.start.value + f.written];
    if !IsCurrent(s, f) then s.(forwarders := s.forwarders[n := f.(running := false)])
    else
      var s1 := s.(forwarders := s.forwarders[n := f.(written := f.written + 1)]);
      if f.which == OpenILink then s1.(open := s.open.Show(update)) else s1.(telegram := s.telegram.Show(update))
  }

  datatype Step =
    | Start(plan: Plan)              // Reload, or Close with nothing enabled
    | Proceed(initial: Update)
    | Subscribe(n: nat)
    | Forward(n: nat)
    | Quit(n: nat)                   // its context is done, or its subscription was dropped
    | Emit(client: nat, update: Update)

  predicate Possible(s: Runtime, step: Step) {
    match step
    case Start(_) => s.phase == Idle
    case Proceed(_) => s.phase != Idle && (s.phase == OpenShown ==> s.open.proxy.Some?)
      && (s.phase == TelegramShown ==> s.telegram.proxy.Some?)
    case Subscribe(n) =>
      && n < |s.forwarders| && s.forwarders[n].running && s.forwarders[n].start.None?
      && s.forwarders[n].client < |s.clients| && s.clients[s.forwarders[n].client] != []
    case Forward(n) =>
      && n < |s.forwarders| && s.forwarders[n].running && s.forwarders[n].start.Some?
      && s.forwarders[n].client < |s.clients|
      && s.forwarders[n].start.value + s.forwarders[n].written < |s.clients[s.forwarders[n].client]|
    case Quit(n) => n < |s.forwarders|
    case Emit(client, _) => client < |s.clients|
  }

  function Next(s: Runtime, step: Step): Runtime
    requires Possible(s, step)
  {
    match step
    case Start(plan) => Begin(s, plan)
    case Proceed(initial) => Advance(s, initial)
    case Subscribe(n) => Subscribed(s, n)
    case Forward(n) => Forwarded(s, n)
    case Quit(n) => s.(forwarders := s.forwarders[n := s.forwarders[n].(running := false)])
    case Emit(client, update) => s.(clients := s.clients[client := s.clients[client] + [update]])
  }

  // ---------------------------------------------------------------- the invariant

  // What forwarder f has passed on.
  function Passed(clients: seq<seq<Update>>, f: Forwarder): seq<Update>
    requires f.client < |clients|
    requires f.start.Some? ==> f.start.value + f.written <= |clients[f.client]|
  {
    if f.start.None? then [] else clients[f.client][f.start.value..f.start.value + f.written]
  }

  // What the reload itself has written to the adapter since it bumped the generation.
  function Own(s: Runtime, which: Which): seq<Update> {
    match s.phase
    case Bumped => []
    case Unproxied => []
    case OpenDisabled => if which == OpenILink then [DISABLED] else []
    case BothDisabled => [DISABLED]
    case OpenShown => if which == OpenILink then [DISABLED, CONNECTING] else [DISABLED]
    case TelegramShown => if which == Telegram || s.plan.open then [DISABLED, CONNECTING] else [DISABLED]
    case OpenInstalled => if which == OpenILink then [DISABLED, CONNECTING] else [DISABLED]
    case Idle =>
      if (if which == OpenILink then s.plan.open else s.plan.telegram) then [DISABLED, CONNECTING] else [DISABLED]
  }

  predicate ForwarderFits(clients: seq<seq<Update>>, generation: nat, f: Forwarder) {
    && f.client < |clients| && clients[f.client] != [] && f.generation <= generation
    && (f.start.None? ==> f.written == 0)
    && (f.start.Some? ==> f.start.value + f.written <= |clients[f.client]|)
  }

  ghost predicate AllFit(clients: seq<seq<Update>>, generation: nat, forwarders: seq<Forwarder>) {
    forall n :: 0 <= n < |forwarders| ==> ForwarderFits(clients, generation, forwarders[n])
  }

  // The installed client has the forwarder the history names, and the adapter shows what the reload wrote and then what
  // that forwarder passed on.
  predicate AdapterFits(a: Adapter, which: Which, own: seq<Update>, generation: nat, forwarders: seq<Forwarder>,
                        clients: seq<seq<Update>>) {
    && a.base <= |a.status|
    && (a.client.None? ==> a.Since() == own)
    && (a.client.Some? ==>
      && a.forwarder < |forwarders|
      && var f := forwarders[a.forwarder];
      && f.which == which && f.generation == generation && Some(f.client) == a.client == a.proxy
      && ForwarderFits(clients, generation, f)
      && a.Since() == own + Passed(clients, f))
  }

  predicate Fits(s: Runtime, which: Which) {
    AdapterFits(AdapterOf(s, which), which, Own(s, which), s.generation, s.forwarders, s.clients)
  }

  // Where the default proxy leads, and which clients are in, as the reload comes along.
  predicate RouteFits(s: Runtime) {
    var openIn := match s.phase
      case Idle => s.plan.open
      case OpenInstalled => true
      case TelegramShown => s.plan.open
      case _ => false;
    && (s.open.client.Some? <==> openIn)
    && (s.telegram.client.Some? <==> s.phase == Idle && s.plan.telegram)
    && (s.phase == OpenShown || s.phase == OpenInstalled ==> s.plan.open)
    && (s.phase == TelegramShown ==> s.plan.telegram)
    && (s.phase != Bumped ==>
      && (s.open.proxy.Some? <==> openIn || s.phase == OpenShown)
      && (s.telegram.proxy.Some? <==> (s.phase == Idle && s.plan.telegram) || s.phase == TelegramShown)
      && s.route == if s.open.proxy.Some? then ToOpenILink else if s.telegram.proxy.Some? then ToTelegram else Nowhere)
  }

  // Every client has at most one forwarder; one that is only shown has none yet.
  ghost predicate OneEach(s: Runtime) {
    && (forall m, n :: 0 <= m < n < |s.forwarders| ==> s.forwarders[m].client != s.forwarders[n].client)
    && (s.phase == OpenShown && s.open.proxy.Some? ==>
      && s.open.proxy.value < |s.clients| && s.clients[s.open.proxy.value] != []
      && forall n :: 0 <= n < |s.forwarders| ==> s.forwarders[n].client != s.open.proxy.value)
    && (s.phase == TelegramShown && s.telegram.proxy.Some? ==>
      && s.telegram.proxy.value < |s.clients| && s.clients[s.telegram.proxy.value] != []
      && forall n :: 0 <= n < |s.forwarders| ==> s.forwarders[n].client != s.telegram.proxy.value)
  }

  ghost predicate Sound(s: Runtime) {
    && AllFit(s.clients, s.generation, s.forwarders)
    && OneEach(s) && RouteFits(s) && Fits(s, OpenILink) && Fits(s, Telegram)
  }

  const EMPTY_ADAPTER := Adapter(None, None, [DISABLED], 0, 0)

  // newMessageRuntime, with both status stores created as disabled
  const INITIAL := Runtime(0, EMPTY_ADAPTER, EMPTY_ADAPTER, Nowhere, Plan(false, false), Idle, [], [])

  lemma InitialIsSound()
    ensures Sound(INITIAL)
  {
  }

  // ---------------------------------------------------------------- every step keeps it

  // The reload writes while no client is installed.
  lemma ShownFits(a: Adapter, u: Update, which: Which, own: seq<Update>, generation: nat, forwarders: seq<Forwarder>,
                  clients: seq<seq<Update>>)
    requires AdapterFits(a, which, own, generation, forwarders, clients) && a.client.None?
    ensures AdapterFits(a.Show(u), which, own + [u], generation, forwarders, clients)
  {
    assert a.Show(u).Since() == a.Since() + [u];
  }

  // Forwarders and clients that are added, and other forwarders that move, do not concern the adapter.
  lemma OthersFit(a: Adapter, which: Which, own: seq<Update>, generation: nat, forwarders: seq<Forwarder>,
                  clients: seq<seq<Update>>, forwarders': seq<Forwarder>, clients': seq<seq<Update>>)
    requires AdapterFits(a, which, own, generation, forwarders, clients)
    requires |forwarders| <= |forwarders'| && clients <= clients'
    requires a.client.Some? ==> forwarders'[a.forwarder].(running := true) == forwarders[a.forwarder].(running := true)
    ensures AdapterFits(a, which, own, generation, forwarders', clients')
  {
  }

  lemma PassedMore(clients: seq<seq<Update>>, f: Forwarder)
    requires f.client < |clients| && f.start.Some? && f.start.value + f.written < |clients[f.client]|
    ensures Passed(clients, f.(written := f.written + 1))
      == Passed(clients, f) + [clients[f.client][f.start.value + f.written]]
  {
  }

  // The installed client's forwarder passes the next status on.
  lemma PassingFits(a: Adapter, which: Which, own: seq<Update>, generation: nat, forwarders: seq<Forwarder>,
                    clients: seq<seq<Update>>)
    requires AdapterFits(a, which, own, generation, forwarders, clients) && a.client.Some?
    requires var f := forwarders[a.forwarder];
      f.start.Some? && f.start.value + f.written < |clients[f.client]|
    ensures var f := forwarders[a.forwarder];
      AdapterFits(a.Show(clients[f.client][f.start.value + f.written]), which, own, generation,
                  forwarders[a.forwarder := f.(written := f.written + 1)], clients)
  {
    var f := forwarders[a.forwarder];
    var u := clients[f.client][f.start.value + f.written];
    assert a.Show(u).Since() == a.Since() + [u];
    PassedMore(clients, f);
    assert own + (Passed(clients, f) + [u]) == own + Passed(clients, f) + [u];
    hide Passed;
  }

  // The forwarder that passes the test of setStatusIfCurrent is the installed client's.
  lemma CurrentIsInstalled(s: Runtime, n: nat)
    requires Sound(s) && n < |s.forwarders|
    ensures IsCurrent(s, s.forwarders[n]) ==> AdapterOf(s, s.forwarders[n].which).forwarder == n
  {
    hide RouteFits, Passed, Own;
  }

  lemma MovedFit(clients: seq<seq<Update>>, generation: nat, forwarders: seq<Forwarder>, n: nat, f: Forwarder)
    requires AllFit(clients, generation, forwarders) && n < |forwarders| && ForwarderFits(clients, generation, f)
    ensures AllFit(clients, generation, forwarders[n := f])
  {
  }

  lemma StillOneEach(s: Runtime, t: Runtime, n: nat)
    requires OneEach(s) && n < |s.forwarders| == |t.forwarders| && t.clients == s.clients && t.phase == s.phase
    requires t.open.proxy == s.open.proxy && t.telegram.proxy == s.telegram.proxy
    requires t.forwarders == s.forwarders[n := t.forwarders[n]] && t.forwarders[n].client == s.forwarders[n].client
    ensures OneEach(t)
  {
  }

  lemma InstalledFacts(s: Runtime, which: Which)
    requires Fits(s, which)
    ensures var a := AdapterOf(s, which);
      a.client.Some? ==> a.forwarder < |s.forwarders| && a.proxy == a.client
  {
  }

  lemma ForwarderOfOne(s: Runtime, which: Which, n: nat)
    requires Fits(s, which) && AdapterOf(s, which).client.Some? && AdapterOf(s, which).forwarder == n
    ensures n < |s.forwarders| && s.forwarders[n].which == which && IsCurrent(s, s.forwarders[n])
  {
  }

  lemma ForwardFits(s: Runtime, n: nat, which: Which)
    requires Sound(s) && Possible(s, Forward(n))
    ensures Fits(Forwarded(s, n), which)
  {
    hide AllFit, OneEach, RouteFits, AdapterFits, Passed;
    var f, t, a := s.forwarders[n], Forwarded(s, n), AdapterOf(s, which);
    CurrentIsInstalled(s, n);
    InstalledFacts(s, which);
    if IsCurrent(s, f) && which == f.which {
      PassingFits(a, which, Own(s, which), s.generation, s.forwarders, s.clients);
    } else {
      if a.client.Some? && a.forwarder == n { ForwarderOfOne(s, which, n); }
      OthersFit(a, which, Own(s, which), s.generation, s.forwarders, s.clients, t.forwarders, t.clients);
    }
  }

  lemma ForwardKeeps(s: Runtime, n: nat)
    requires Sound(s) && Possible(s, Forward(n))
    ensures Sound(Forwarded(s, n))
  {
    var t := Forwarded(s, n);
    assert ForwarderFits(s.clients, s.generation, s.forwarders[n]);
    hide AllFit, OneEach, Fits;
    MovedFit(s.clients, s.generation, s.forwarders, n, t.forwarders[n]);
    StillOneEach(s, t, n);
    ForwardFits(s, n, OpenILink);
    ForwardFits(s, n, Telegram);
  }

  lemma SubscribeKeeps(s: Runtime, n: nat)
    requires Sound(s) && Possible(s, Subscribe(n))
    ensures Sound(Subscribed(s, n))
  {
    var f, t := s.forwarders[n], Subscribed(s, n);
    assert ForwarderFits(s.clients, s.generation, f);
    MovedFit(s.clients, s.generation, s.forwarders, n, t.forwarders[n]);
    StillOneEach(s, t, n);
    assert Passed(t.clients, t.forwarders[n]) == [];
    hide AllFit, OneEach;
  }

  lemma QuitKeeps(s: Runtime, n: nat)
    requires Sound(s) && Possible(s, Quit(n))
    ensures Sound(Next(s, Quit(n)))
  {
    var t := Next(s, Quit(n));
    assert ForwarderFits(s.clients, s.generation, s.forwarders[n]);
    hide AdapterFits, AllFit, OneEach, Passed;
    MovedFit(s.clients, s.generation, s.forwarders, n, t.forwarders[n]);
    StillOneEach(s, t, n);
    InstalledFacts(s, OpenILink);
    InstalledFacts(s, Telegram);
    OthersFit(s.open, OpenILink, Own(s, OpenILink), s.generation, s.forwarders, s.clients, t.forwarders, t.clients);
    OthersFit(s.telegram, Telegram, Own(s, Telegram), s.generation, s.forwarders, s.clients, t.forwarders, t.clients);
  }

  // Clients only ever say more.
  lemma EmitFits(s: Runtime, t: Runtime, which: Which)
    requires Fits(s, which) && t == s.(clients := t.clients) && |t.clients| == |s.clients|
    requires forall c :: 0 <= c < |s.clients| ==> s.clients[c] <= t.clients[c]
    ensures Fits(t, which)
  {
    var a := AdapterOf(s, which);
    if a.client.Some? {
      var f := s.forwarders[a.forwarder];
      assert Passed(t.clients, f) == Passed(s.clients, f);
    }
  }

  lemma EmitKeeps(s: Runtime, client: nat, update: Update)
    requires Sound(s) && client < |s.clients|
    ensures Sound(Next(s, Emit(client, update)))
  {
    var t := Next(s, Emit(client, update));
    forall n | 0 <= n < |t.forwarders| ensures ForwarderFits(t.clients, t.generation, t.forwarders[n]) {
      assert ForwarderFits(s.clients, s.generation, s.forwarders[n]);
    }
    hide AllFit, RouteFits, Own;
    EmitFits(s, t, OpenILink);
    EmitFits(s, t, Telegram);
  }

  lemma StartKeeps(s: Runtime, plan: Plan)
    requires Sound(s) && s.phase == Idle
    ensures Sound(Begin(s, plan))
  {
    var t := Begin(s, plan);
    forall n | 0 <= n < |t.forwarders| ensures ForwarderFits(t.clients, t.generation, t.forwarders[n]) {
      assert ForwarderFits(s.clients, s.generation, s.forwarders[n]);
    }
    hide AllFit;
  }

  // A phase in which the reload touches at most one adapter that has no client, or installs what it has shown.
  lemma InstallFits(a: Adapter, which: Which, own: seq<Update>, generation: nat, forwarders: seq<Forwarder>,
                    clients: seq<seq<Update>>)
    requires AdapterFits(a, which, own, generation, forwarders, clients) && a.client.None? && a.proxy.Some?
    requires a.proxy.value < |clients| && clients[a.proxy.value] != []
    ensures AdapterFits(Installed(a, |forwarders|), which, own, generation,
                        forwarders + [Forwarder(which, generation, a.proxy.value, None, 0, true)], clients)
  {
    var f := Forwarder(which, generation, a.proxy.value, None, 0, true);
    assert (forwarders + [f])[|forwarders|] == f;
    assert own + Passed(clients, f) == own;
  }

  lemma AdvanceForwarders(s: Runtime, initial: Update)
    requires Sound(s) && Possible(s, Proceed(initial))
    ensures var t := Advance(s, initial);
      AllFit(t.clients, t.generation, t.forwarders) && OneEach(t)
  {
    hide Own, Passed;
    var t := Advance(s, initial);
    forall n | 0 <= n < |t.forwarders| ensures ForwarderFits(t.clients, t.generation, t.forwarders[n]) {
      if n < |s.forwarders| { assert ForwarderFits(s.clients, s.generation, s.forwarders[n]); }
    }
  }

  lemma AdvanceRoute(s: Runtime, initial: Update)
    requires Sound(s) && Possible(s, Proceed(initial))
    ensures RouteFits(Advance(s, initial))
  {
    hide OneEach, AllFit, AdapterFits;
    InstalledFacts(s, OpenILink);
  }

  lemma ShownClient(s: Runtime, which: Which)
    requires OneEach(s) && s.phase == (if which == OpenILink then OpenShown else TelegramShown)
    requires AdapterOf(s, which).proxy.Some?
    ensures var c := AdapterOf(s, which).proxy.value; c < |s.clients| && s.clients[c] != []
  {
  }

  // Proxies may change while no client is installed.
  lemma ProxyIsNotSeen(a: Adapter, proxy: Option<nat>, which: Which, own: seq<Update>, generation: nat,
                       forwarders: seq<Forwarder>, clients: seq<seq<Update>>)
    requires AdapterFits(a, which, own, generation, forwarders, clients) && a.client.None?
    ensures AdapterFits(a.(proxy := proxy), which, own, generation, forwarders, clients)
  {
  }

  lemma ConnectingFits(a: Adapter, which: Which, generation: nat, forwarders: seq<Forwarder>, clients: seq<seq<Update>>,
                       client: nat)
    requires AdapterFits(a, which, [DISABLED], generation, forwarders, clients) && a.client.None?
    ensures AdapterFits(Shown(a, client), which, [DISABLED, CONNECTING], generation, forwarders, clients)
  {
    hide AdapterFits;
    ProxyIsNotSeen(a, Some(client), which, [DISABLED], generation, forwarders, clients);
    ShownFits(a.(proxy := Some(client)), CONNECTING, which, [DISABLED], generation, forwarders, clients);
    assert [DISABLED] + [CONNECTING] == [DISABLED, CONNECTING];
  }

  // What the reload's next write leaves to the adapter, given what that may be.
  lemma AdvanceFits(s: Runtime, initial: Update, which: Which)
    requires Sound(s) && Possible(s, Proceed(initial))
    ensures Fits(Advance(s, initial), which)
  {
    hide OneEach, AdapterFits, AllFit, Passed;
    var t, a := Advance(s, initial), AdapterOf(s, which);
    InstalledFacts(s, which);
    if s.phase == OpenShown && which == OpenILink {
      ShownClient(s, which);
      InstallFits(a, which, Own(s, which), s.generation, s.forwarders, s.clients);
    } else if s.phase == TelegramShown && which == Telegram {
      ShownClient(s, which);
      InstallFits(a, which, Own(s, which), s.generation, s.forwarders, s.clients);
    } else {
      OthersFit(a, which, Own(s, which), s.generation, s.forwarders, s.clients, t.forwarders, t.clients);
      if s.phase == Bumped {
        ProxyIsNotSeen(a, None, which, [], s.generation, s.forwarders, s.clients);
      } else if s.phase == Unproxied || s.phase == OpenDisabled {
        if (s.phase == Unproxied) == (which == OpenILink) {
          ShownFits(a, DISABLED, which, [], s.generation, s.forwarders, s.clients);
          assert [] + [DISABLED] == [DISABLED];
        }
      } else if AdapterOf(t, which) != a {
        ConnectingFits(a, which, s.generation, s.forwarders, t.clients, |s.clients|);
      }
    }
  }

  lemma NextKeeps(s: Runtime, step: Step)
    requires Sound(s) && Possible(s, step)
    ensures Sound(Next(s, step))
  {
    match step
    case Start(plan) => StartKeeps(s, plan);
    case Proceed(initial) =>
      AdvanceForwarders(s, initial);
      AdvanceRoute(s, initial);
      AdvanceFits(s, initial, OpenILink);
      AdvanceFits(s, initial, Telegram);
      hide AllFit, OneEach, RouteFits, Fits, Advance;
    case Subscribe(n) => SubscribeKeeps(s, n); hide Sound, Subscribed;
    case Forward(n) => ForwardKeeps(s, n); hide Sound, Forwarded;
    case Quit(n) => QuitKeeps(s, n); hide Sound;
    case Emit(client, update) => EmitKeeps(s, client, update); hide Sound;
  }

  function Apply(s: Runtime, step: Step): Runtime {
    if Possible(s, step) then Next(s, step) else s
  }

  function Run(s: Runtime, steps: seq<Step>): Runtime {
    if steps == [] then s else Apply(Run(s, steps[..|steps| - 1]), steps[|steps| - 1])
  }

  lemma {:induction false} RunIsSound(steps: seq<Step>)
    ensures Sound(Run(INITIAL, steps))
  {
    if steps == [] { InitialIsSound(); }
    else {
      var s, last := Run(INITIAL, steps[..|steps| - 1]), steps[|steps| - 1];
      RunIsSound(steps[..|steps| - 1]);
      hide Sound, Next;
      if Possible(s, last) { NextKeeps(s, last); }
    }
  }

  // ---------------------------------------------------------------- what the reload promises

  // In every state of every run: since the generation was last bumped, a shared status has been set by the reload, and
  // then by the installed client's forwarder alone, which passes on its client's statuses in order and without a gap.
  lemma ReloadFencing(steps: seq<Step>, which: Which)
    ensures var s := Run(INITIAL, steps);
      var a := AdapterOf(s, which);
      && a.base <= |a.status|
      && (a.client.None? ==> a.Since() == Own(s, which))
      && (a.client.Some? ==>
        && a.forwarder < |s.forwarders|
        && var f := s.forwarders[a.forwarder];
        && Some(f.client) == a.client && ForwarderFits(s.clients, s.generation, f)
        && a.Since() == Own(s, which) + Passed(s.clients, f))
  {
    RunIsSound(steps);
  }

  // A forwarder whose client is no longer the installed one writes nothing, and ends.
  lemma StaleForwarderWritesNothing(steps: seq<Step>, n: nat)
    requires Possible(Run(INITIAL, steps), Forward(n))
    ensures var s := Run(INITIAL, steps);
      var a, t := AdapterOf(s, s.forwarders[n].which), Next(s, Forward(n));
      a.client.None? || a.forwarder != n ==>
        t.open == s.open && t.telegram == s.telegram && !t.forwarders[n].running
  {
    RunIsSound(steps);
    CurrentIsInstalled(Run(INITIAL, steps), n);
    hide Sound, Run;
  }

  // The installed client's forwarder passes on what its client says next, to its own adapter, and goes on.
  lemma InstalledForwarderPasses(steps: seq<Step>, n: nat)
    requires Possible(Run(INITIAL, steps), Forward(n))
    ensures var s := Run(INITIAL, steps);
      var f, t := s.forwarders[n], Next(s, Forward(n));
      var a := AdapterOf(s, f.which);
      a.client.Some? && a.forwarder == n ==>
        && AdapterOf(t, f.which) == a.(status := a.status + [s.clients[f.client][f.start.value + f.written]])
        && (f.which == OpenILink ==> t.telegram == s.telegram) && (f.which == Telegram ==> t.open == s.open)
        && t.forwarders == s.forwarders[n := f.(written := f.written + 1)]
  {
    RunIsSound(steps);
    var s := Run(INITIAL, steps);
    hide Run, Own, Passed, AllFit, OneEach, RouteFits;
    var a := AdapterOf(s, s.forwarders[n].which);
    if a.client.Some? && a.forwarder == n { ForwarderOfOne(s, s.forwarders[n].which, n); }
  }

  // Once a reload has begun, every forwarder there is belongs to an earlier one.
  lemma ReloadOutdatesForwarders(steps: seq<Step>, plan: Plan)
    requires Possible(Run(INITIAL, steps), Start(plan))
    ensures var s, t := Run(INITIAL, steps), Next(Run(INITIAL, steps), Start(plan));
      && t.forwarders == s.forwarders && t.open.client.None? && t.telegram.client.None?
      && forall n :: 0 <= n < |t.forwarders| ==>
           t.forwarders[n].generation < t.generation && !IsCurrent(t, t.forwarders[n])
  {
    RunIsSound(steps);
    var s := Run(INITIAL, steps);
    hide Run, Own, Passed, OneEach, RouteFits, Fits;
    forall n | 0 <= n < |s.forwarders| ensures s.forwarders[n].generation <= s.generation {
      assert ForwarderFits(s.clients, s.generation, s.forwarders[n]);
    }
  }

  // Between reloads the default proxy leads to OpenILink if that is enabled, else to Telegram if that is, else nowhere;
  // and each proxy to its adapter's client.
  lemma RouteIsByPriority(steps: seq<Step>)
    requires Run(INITIAL, steps).phase == Idle
    ensures var s := Run(INITIAL, steps);
      && s.route == (if s.plan.open then ToOpenILink else if s.plan.telegram then ToTelegram else Nowhere)
      && s.open.proxy == s.open.client && s.telegram.proxy == s.telegram.client
      && (s.open.client.Some? <==> s.plan.open) && (s.telegram.client.Some? <==> s.plan.telegram)
  {
    RunIsSound(steps);
  }

  predicate Starts(step: Step) {
    step.Start?
  }

  // Closed: no reload under way, nothing enabled, nothing installed, and the last thing shown is that.
  predicate Closed(s: Runtime) {
    && s.phase == Idle && s.route == Nowhere && s.open.client.None? && s.telegram.client.None?
    && s.open.status != [] && s.open.status[|s.open.status| - 1] == DISABLED
    && s.telegram.status != [] && s.telegram.status[|s.telegram.status| - 1] == DISABLED
  }

  lemma NothingEnabledIsClosed(s: Runtime)
    requires Sound(s) && s.phase == Idle && s.plan == Plan(false, false)
    ensures Closed(s)
  {
    hide AllFit, OneEach;
    assert s.open.Since() == [DISABLED] && s.telegram.Since() == [DISABLED];
    assert s.open.status[|s.open.status| - 1] == s.open.Since()[0];
    assert s.telegram.status[|s.telegram.status| - 1] == s.telegram.Since()[0];
  }

  lemma StillClosed(s: Runtime, step: Step)
    requires Closed(s) && !Starts(step)
    ensures Closed(Apply(s, step)) && Apply(s, step).open == s.open && Apply(s, step).telegram == s.telegram
  {
  }

  // After Close, or a reload with nothing enabled, the adapters stay disabled and there is nowhere to send to, whatever
  // the old forwarders do, until the next reload.
  lemma {:induction false} CloseLasts(s: Runtime, more: seq<Step>)
    requires Sound(s) && s.phase == Idle && s.plan == Plan(false, false)
    requires forall step <- more :: !Starts(step)
    ensures Closed(Run(s, more)) && Run(s, more).open == s.open && Run(s, more).telegram == s.telegram
  {
    hide Sound, Closed, Apply, Starts;
    if more == [] { NothingEnabledIsClosed(s); }
    else {
      var front, last := more[..|more| - 1], more[|more| - 1];
      assert last in more && forall step <- front :: step in more;
      CloseLasts(s, front);
      StillClosed(Run(s, front), last);
    }
  }

  // ---------------------------------------------------------------- a reload that is not interrupted

  function Rank(phase: Phase): nat {
    match phase
    case Idle => 0
    case TelegramShown => 1
    case OpenInstalled => 2
    case OpenShown => 3
    case BothDisabled => 4
    case OpenDisabled => 5
    case Unproxied => 6
    case Bumped => 7
  }

  // The reload under way runs to its end.
  function Finished(s: Runtime, initial: Update): Runtime
    decreases Rank(s.phase)
  {
    if !Possible(s, Proceed(initial)) then s else Finished(Advance(s, initial), initial)
  }

  // What is left of a reload once both adapters are shown as disabled.
  lemma FinishedFrom(s: Runtime, initial: Update)
    requires s.phase == Bumped
    ensures var t := Advance(Advance(Advance(s, initial), initial), initial);
      && t.phase == BothDisabled
      && var u := Advance(t, initial);
      && (!s.plan.open && !s.plan.telegram ==> Finished(s, initial) == u)
      && (!s.plan.open && s.plan.telegram ==> Finished(s, initial) == Advance(u, initial))
      && (s.plan.open ==>
        && var v := Advance(Advance(u, initial), initial);
        && (!s.plan.telegram ==> Finished(s, initial) == v)
        && (s.plan.telegram ==> Finished(s, initial) == Advance(v, initial)))
  {
    var t := Advance(Advance(Advance(s, initial), initial), initial);
    assert Finished(s, initial) == Finished(Advance(s, initial), initial);
    assert Finished(Advance(s, initial), initial) == Finished(Advance(Advance(s, initial), initial), initial);
    assert Finished(Advance(Advance(s, initial), initial), initial) == Finished(t, initial);
    var u := Advance(t, initial);
    assert Finished(t, initial) == Finished(u, initial);
    if u.phase != Idle {
      var v := Advance(u, initial);
      assert Finished(u, initial) == Finished(v, initial);
      if v.phase != Idle {
        var w := Advance(v, initial);
        assert Finished(v, initial) == Finished(w, initial);
        if w.phase != Idle { assert Finished(w, initial) == Finished(Advance(w, initial), initial); }
      }
    }
  }

  // What a reload has done when it is through, whatever was there before: each adapter the configuration enables has a
  // new client, which its proxy leads to and a forwarder of this generation listens to; it has been shown as disabled
  // and then as connecting. The others are shown as disabled and have none.
  lemma ReloadIsExact(s: Runtime, plan: Plan, initial: Update)
    requires s.phase == Idle
    ensures var t, n, g := Finished(Begin(s, plan), initial), |s.clients|, s.generation + 1;
      var m := if plan.open then n + 1 else n;
      var open, telegram := if plan.open then Some(n) else None, if plan.telegram then Some(m) else None;
      && t.phase == Idle && t.plan == plan && t.generation == g
      && t.open.client == t.open.proxy == open && t.telegram.client == t.telegram.proxy == telegram
      && t.open.status == s.open.status + [DISABLED] + (if plan.open then [CONNECTING] else [])
      && t.telegram.status == s.telegram.status + [DISABLED] + (if plan.telegram then [CONNECTING] else [])
      && t.route == (if plan.open then ToOpenILink else if plan.telegram then ToTelegram else Nowhere)
      && t.clients == s.clients + (if plan.open then [[initial]] else []) + (if plan.telegram then [[initial]] else [])
      && t.forwarders == s.forwarders
           + (if plan.open then [Forwarder(OpenILink, g, n, None, 0, true)] else [])
           + (if plan.telegram then [Forwarder(Telegram, g, m, None, 0, true)] else [])
  {
    hide Finished;
    FinishedFrom(Begin(s, plan), initial);
  }
}
