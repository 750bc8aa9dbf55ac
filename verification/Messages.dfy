/** The message runtime and the proxies jobs send through. */
module MessageAdapters {
  import opened Text
  import opened StatusStores
  import opened AdapterReload

  // What a proxy may lead to: an adapter's client, or another proxy.
  datatype Messenger = ClientMessenger(id: nat) | Through(which: Which)

  class Proxy {
    var client: Option<Messenger>

    constructor (client: Option<Messenger>)
      ensures this.client == client
    {
      this.client := client;
    }

    method Set(client: Option<Messenger>)
      modifies this
      ensures this.client == client
    {
      this.client := client;
    }

    method Client() returns (client: Option<Messenger>)
      ensures client == this.client
    {
      client := this.client;
    }
  }

  function ToClient(client: Option<nat>): Option<Messenger> {
    if client.None? then None else Some(ClientMessenger(client.value))
  }

  function ToProxy(route: Route): Option<Messenger> {
    match route
    case Nowhere => None
    case ToOpenILink => Some(Through(OpenILink))
    case ToTelegram => Some(Through(Telegram))
  }

  class MessageRuntime {
    const openProxy: Proxy
    const telegramProxy: Proxy
    const defaultProxy: Proxy
    var generation: nat
    var openClient: Option<nat>
    var telegramClient: Option<nat>
    var openStatus: seq<Update>      // what the shared statuses have been set to
    var telegramStatus: seq<Update>

    var clients: seq<seq<Update>>    // the clients made so far, each with the statuses of its own store
    var forwarders: seq<Forwarder>   // the forwardStatus goroutines
    var stopped: set<nat>            // the clients that have been closed, with their contexts cancelled

    ghost predicate Separate() {
      openProxy != telegramProxy && openProxy != defaultProxy && telegramProxy != defaultProxy
    }

    // The fields are what s has; `base`, `forwarder`, `plan` and `phase` are not in the program.
    ghost predicate Shows(s: Runtime)
      reads this, openProxy, telegramProxy, defaultProxy
    {
      && Separate() && generation == s.generation
      && openClient == s.open.client && telegramClient == s.telegram.client
      && openStatus == s.open.status && telegramStatus == s.telegram.status
      && openProxy.client == ToClient(s.open.proxy) && telegramProxy.client == ToClient(s.telegram.proxy)
      && defaultProxy.client == ToProxy(s.route)
      && clients == s.clients && forwarders == s.forwarders
    }

    // Exactly the clients that are no longer installed have been stopped.
    ghost predicate Accounted()
      reads `clients, `stopped, `openClient, `telegramClient
    {
      && (openClient.Some? ==> openClient.value < |clients|)
      && (telegramClient.Some? ==> telegramClient.value < |clients|)
      && forall n: nat :: n in stopped <==> n < |clients| && openClient != Some(n) && telegramClient != Some(n)
    }

    constructor ()
      ensures Shows(INITIAL) && Accounted()
      ensures fresh(openProxy) && fresh(telegramProxy) && fresh(defaultProxy)
    {
      openProxy := new Proxy(None);
      telegramProxy := new Proxy(None);
      defaultProxy := new Proxy(None);
      generation, openClient, telegramClient := 0, None, None;
      openStatus, telegramStatus, clients, forwarders := [DISABLED], [DISABLED], [], [];
      stopped := {};
    }

    // The clients are taken out, their contexts cancelled, and they are closed.
    method StopClients()
      requires Accounted()
      modifies `openClient, `telegramClient, `stopped
      ensures Accounted() && openClient.None? && telegramClient.None?
    {
      var oldOpen, oldTelegram := openClient, telegramClient;
      openClient, telegramClient := None, None;
      if oldOpen.Some? { stopped := stopped + {oldOpen.value}; }
      if oldTelegram.Some? { stopped := stopped + {oldTelegram.value}; }
    }

    // The sections Reload and Close have in common: the old clients are out and both adapters shown as disabled.
    method TakeDown(plan: Plan, ghost s: Runtime, ghost initial: Update)
      requires Shows(s) && s.phase == Idle && Accounted()
      modifies this, openProxy, telegramProxy, defaultProxy
      ensures var t := Begin(s, plan);
        Shows(Advance(Advance(Advance(t, initial), initial), initial))
      ensures Accounted() && openClient.None? && telegramClient.None?
    {
      hide Accounted;
      generation := generation + 1;
      StopClients();
      openProxy.Set(None);
      telegramProxy.Set(None);
      defaultProxy.Set(None);
      openStatus := openStatus + [DISABLED];
      telegramStatus := telegramStatus + [DISABLED];
    }

    // Reload's part for OpenILink
    method BringUpOpenILink(initial: Update, ghost s: Runtime)
      requires Shows(s) && s.phase == BothDisabled && s.plan.open && Accounted() && openClient.None?
      modifies this, openProxy, defaultProxy
      ensures Shows(Advance(Advance(s, initial), initial)) && Accounted() && telegramClient == old(telegramClient)
    {
      var client := |clients|;
      clients := clients + [[initial]];
      openProxy.Set(Some(ClientMessenger(client)));
      defaultProxy.Set(Some(Through(OpenILink)));
      openStatus := openStatus + [CONNECTING];
      openClient := Some(client);
      forwarders := forwarders + [Forwarder(OpenILink, generation, client, None, 0, true)];
    }

    // ... and for Telegram
    method BringUpTelegram(initial: Update, ghost s: Runtime)
      requires Shows(s) && s.plan.telegram && Accounted() && telegramClient.None?
      requires (s.phase == BothDisabled && !s.plan.open) || s.phase == OpenInstalled
      modifies this, telegramProxy, defaultProxy
      ensures Shows(Advance(Advance(s, initial), initial)) && Accounted()
    {
      var client := |clients|;
      clients := clients + [[initial]];
      telegramProxy.Set(Some(ClientMessenger(client)));
      var route := defaultProxy.Client();
      if route.None? { defaultProxy.Set(Some(Through(Telegram))); }
      telegramStatus := telegramStatus + [CONNECTING];
      telegramClient := Some(client);
      forwarders := forwarders + [Forwarder(Telegram, generation, client, None, 0, true)];
    }

    // Reload, without interruption; `plan` is what the configuration enables
    method Reload(plan: Plan, initial: Update, ghost s: Runtime)
      requires Shows(s) && s.phase == Idle && Accounted()
      modifies this, openProxy, telegramProxy, defaultProxy
      ensures Shows(Finished(Begin(s, plan), initial)) && Accounted()
      ensures generation == old(generation) + 1
      ensures openClient.Some? <==> plan.open
      ensures telegramClient.Some? <==> plan.telegram
      ensures openStatus == old(openStatus) + [DISABLED] + if plan.open then [CONNECTING] else []
      ensures telegramStatus == old(telegramStatus) + [DISABLED] + if plan.telegram then [CONNECTING] else []
      ensures defaultProxy.client
        == if plan.open then Some(Through(OpenILink)) else if plan.telegram then Some(Through(Telegram)) else None
    {
      ReloadIsExact(s, plan, initial);
      hide Finished, Begin, Advance;
      ghost var t := Advance(Advance(Advance(Begin(s, plan), initial), initial), initial);
      TakeDown(plan, s, initial);
      FinishedFrom(Begin(s, plan), initial);
      if plan.open {
        BringUpOpenILink(initial, t);
        t := Advance(Advance(t, initial), initial);
      }
      if plan.telegram { BringUpTelegram(initial, t); }
    }

    method Close(initial: Update, ghost s: Runtime)
      requires Shows(s) && s.phase == Idle && Accounted()
      modifies this, openProxy, telegramProxy, defaultProxy
      ensures Shows(Finished(Begin(s, Plan(false, false)), initial))
      ensures forall n: nat :: n in stopped <==> n < |clients|
    {
      TakeDown(Plan(false, false), s, initial);
      FinishedFrom(Begin(s, Plan(false, false)), initial);
    }

    // setStatusIfCurrent, for forwarder n's next update
    method SetStatusIfCurrent(n: nat, ghost s: Runtime) returns (current: bool)
      requires Shows(s) && Possible(s, Forward(n))
      modifies `openStatus, `telegramStatus, `forwarders
      ensures Shows(Forwarded(s, n)) && current == IsCurrent(s, s.forwarders[n])
    {
      var f := forwarders[n];
      var update := clients[f.client][f.start.value + f.written];
      current := f.generation == generation;
      if current {
        if f.which == OpenILink { current := openClient == Some(f.client); }
        else { current := telegramClient == Some(f.client); }
      }
      if current {
        if f.which == OpenILink { openStatus := openStatus + [update]; }
        else { telegramStatus := telegramStatus + [update]; }
        forwarders := forwarders[n := f.(written := f.written + 1)];
      } else {
        forwarders := forwarders[n := f.(running := false)];
      }
    }
  }
}
