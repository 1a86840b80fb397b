/**
  The router and the loopback transport's callback dictionaries on the heap.
 */
module Router {
  import opened Wrappers
  import opened Registry
  import opened Subscriptions

  class LoopbackTransport {
    var connected: bool
    var requestCallbacks: map<string, Callback>
    var eventCallbacks: map<string, Callback>
    var broadcastCallbacks: map<string, seq<Callback>>

    function View(): Subs
      reads this
    {
      Subs(requestCallbacks, eventCallbacks, broadcastCallbacks)
    }

    constructor ()
      ensures View() == Subs(map[], map[], map[]) && !connected
    {
      connected := false;
      requestCallbacks, eventCallbacks, broadcastCallbacks := map[], map[], map[];
    }

    /** The three pairs of registration methods (base.py:331-389). */
    method RegisterCallback(kind: Kind, name: string, cb: Callback)
      requires cb.kind == kind && cb.name == name
      modifies this
      ensures View() == Subscribe(old(View()), cb.router, kind, name) && connected == old(connected)
    {
      match kind
      case Rpc => requestCallbacks := requestCallbacks[name := cb];
      case Queue => eventCallbacks := eventCallbacks[name := cb];
      case Broadcast =>
        var present := if name in broadcastCallbacks then broadcastCallbacks[name] else [];
        broadcastCallbacks := broadcastCallbacks[name := present + [cb]];
    }

    method UnregisterCallback(kind: Kind, name: string)
      modifies this
      ensures View() == Unsubscribe(old(View()), kind, name) && connected == old(connected)
    {
      match kind
      case Rpc => requestCallbacks := requestCallbacks - {name};
      case Queue => eventCallbacks := eventCallbacks - {name};
      case Broadcast =>
        if name in broadcastCallbacks {
          broadcastCallbacks := broadcastCallbacks[name := []];
        }
    }

    /** Which callbacks an event or a broadcast reaches, in order (base.py:343-374). */
    method Publish(kind: Kind, name: string) returns (called: seq<Callback>)
      requires !kind.Rpc?
      ensures called == Held(View(), kind, name)
    {
      called := [];
      if kind.Queue? {
        if name in eventCallbacks {
          called := [eventCallbacks[name]];
        }
        return;
      }
      var callbacks := if name in broadcastCallbacks then broadcastCallbacks[name] else [];
      for i := 0 to |callbacks|
        invariant called == callbacks[..i]
      {
        called := called + [callbacks[i]];
      }
    }
  }

  class Router {
    const id: nat
    const rpcRegistry: Manager
    const queueRegistry: Manager
    const broadcastRegistry: Manager
    var server: LoopbackTransport?
    var activated: Names

    ghost predicate Valid()
      reads this, rpcRegistry, queueRegistry, broadcastRegistry
    {
      && rpcRegistry != queueRegistry && queueRegistry != broadcastRegistry && rpcRegistry != broadcastRegistry
      && rpcRegistry.Valid() && queueRegistry.Valid() && broadcastRegistry.Valid()
      && !rpcRegistry.unite && !queueRegistry.unite && !broadcastRegistry.unite
    }

    /** The names in the three registries, in registration order. */
    ghost function Registered(): Names
      reads rpcRegistry, queueRegistry, broadcastRegistry
    {
      Names(rpcRegistry.order, queueRegistry.order, broadcastRegistry.order)
    }

    constructor (id: nat)
      ensures Valid() && fresh(rpcRegistry) && fresh(queueRegistry) && fresh(broadcastRegistry)
      ensures this.id == id && server == null && activated == NO_NAMES && Registered() == NO_NAMES
    {
      this.id, server, activated := id, null, NO_NAMES;
      rpcRegistry := new Manager(false);
      queueRegistry := new Manager(false);
      broadcastRegistry := new Manager(false);
    }

    function RegistryOf(kind: Kind): Manager
    {
      match kind case Rpc => rpcRegistry case Queue => queueRegistry case Broadcast => broadcastRegistry
    }

    // ---- The router's life as a value: transports are numbered, somehow ----

    ghost predicate Numbered(ts: map<nat, LoopbackTransport>)
      reads this
    {
      && (forall i, j :: i in ts && j in ts && ts[i] == ts[j] ==> i == j)
      && (server == null || server in ts.Values)
    }

    static ghost function NumberOf(ts: map<nat, LoopbackTransport>, t: LoopbackTransport?): (n: Option<nat>)
      ensures n.Some? <==> t != null && t in ts.Values
      ensures n.Some? ==> n.value in ts && ts[n.value] == t
    {
      if t != null && t in ts.Values then
        var k :| k in ts && ts[k] == t;
        Some(k)
      else None
    }

    ghost function AsLife(ts: map<nat, LoopbackTransport>): Life
      reads this, rpcRegistry, queueRegistry, broadcastRegistry, ts.Values
    {
      Life(id, Registered(), NumberOf(ts, server), activated, Views(ts))
    }

    static ghost function Views(ts: map<nat, LoopbackTransport>): map<nat, Subs>
      reads ts.Values
    {
      map k | k in ts :: ts[k].View()
    }

    /** A router and transports just constructed begin a life. */
    lemma BeginsNewborn(ts: map<nat, LoopbackTransport>)
      requires server == null && activated == NO_NAMES && Registered() == NO_NAMES
      requires forall k :: k in ts ==> ts[k].View() == NO_SUBS
      ensures Numbered(ts) <==> forall i, j :: i in ts && j in ts && ts[i] == ts[j] ==> i == j
      ensures Newborn(AsLife(ts))
    {
    }

    /** Only transport `n` changed. */
    static lemma OneViewChanged(before: map<nat, Subs>, after: map<nat, Subs>, n: nat)
      requires n in before && before.Keys == after.Keys && forall k :: k in before && k != n ==> after[k] == before[k]
      ensures after == before[n := after[n]]
    {
    }

    /** `late` stands for `LateRegistration`, `twice` for `RegisteringTwice` (router.py:474-479, 511-516, 544-549). */
    method Register(kind: Kind, name: string, options: Options, ghost ts: map<nat, LoopbackTransport>)
      returns (late: bool, twice: bool)
      requires Valid() && Numbered(ts)
      modifies RegistryOf(kind), RegistryOf(kind).items.Values
      ensures Valid()
      ensures late <==> server != null
      ensures twice <==> !late && name in NamesOf(old(Registered()), kind)
      ensures Registered() == if late || twice then old(Registered()) else AddName(old(Registered()), kind, name)
      ensures Numbered(ts) && AsLife(ts) == Do(old(AsLife(ts)), Cmd.Register(kind, name))
    {
      hide DoActivate, DoDeactivate, SubscribeAll, UnsubscribeAll;
      twice := false;
      late := server != null;
      if !late {
        var ok := RegistryOf(kind).Register(name, options);
        twice := !ok;
      }
      assert Views(ts) == old(Views(ts));
    }

    /** Subscribe or unsubscribe each of `names`, in order. */
    method SubscribeNames(t: LoopbackTransport, kind: Kind, names: seq<string>)
      modifies t
      ensures t.View() == SubscribeEach(old(t.View()), id, kind, names)
    {
      for i := 0 to |names|
        invariant t.View() == SubscribeEach(old(t.View()), id, kind, names[..i])
      {
        assert names[..i + 1][..i] == names[..i];
        t.RegisterCallback(kind, names[i], Callback(id, kind, names[i]));
      }
      assert names[..|names|] == names;
    }

    method UnsubscribeNames(t: LoopbackTransport, kind: Kind, names: seq<string>)
      modifies t
      ensures t.View() == UnsubscribeEach(old(t.View()), kind, names)
    {
      for i := 0 to |names|
        invariant t.View() == UnsubscribeEach(old(t.View()), kind, names[..i])
      {
        assert names[..i + 1][..i] == names[..i];
        t.UnregisterCallback(kind, names[i]);
      }
      assert names[..|names|] == names;
    }

    /** router.py:181-190 */
    method Deactivate(ghost ts: map<nat, LoopbackTransport>)
      requires Valid() && Numbered(ts)
      modifies this, server
      ensures Valid() && Registered() == old(Registered()) && server == null
      ensures old(server) == null ==> activated == old(activated)
      ensures old(server) != null ==>
                activated == NO_NAMES && old(server).View() == UnsubscribeAll(old(server.View()), old(activated))
      ensures Numbered(ts) && AsLife(ts) == Do(old(AsLife(ts)), Cmd.Deactivate)
    {
      hide DoActivate, DoRegister, SubscribeAll;
      if server == null {
        return;
      }
      ghost var views, t, subs := Views(ts), NumberOf(ts, server).value, server.View();
      UnsubscribeNames(server, Rpc, activated.rpc);
      UnsubscribeNames(server, Queue, activated.queue);
      UnsubscribeNames(server, Broadcast, activated.broadcast);
      assert server.View() == UnsubscribeAll(subs, activated);
      hide UnsubscribeAll;
      OneViewChanged(views, Views(ts), t);
      activated := NO_NAMES;
      server := null;
    }

    /** Subscribe every name registered by now, and record it (router.py:156-170). */
    method SubscribeRegistered(ghost ts: map<nat, LoopbackTransport>)
      requires Valid() && Numbered(ts) && server != null
      modifies this`activated, server
      ensures Valid() && Registered() == old(Registered()) && activated == Registered()
      ensures server.View() == SubscribeAll(old(server.View()), id, Registered())
      ensures Numbered(ts) && AsLife(ts) == Subscribed(old(AsLife(ts)), NumberOf(ts, server).value)
    {
      hide DoRegister, DoActivate, DoDeactivate, UnsubscribeAll;
      ghost var views, t, subs := Views(ts), NumberOf(ts, server).value, server.View();
      var rpc := rpcRegistry.Names();
      var queue := queueRegistry.Names();
      var broadcast := broadcastRegistry.Names();
      SubscribeNames(server, Rpc, rpc);
      SubscribeNames(server, Queue, queue);
      SubscribeNames(server, Broadcast, broadcast);
      activated := Names(rpc, queue, broadcast);
      assert server.View() == SubscribeAll(subs, id, activated);
      hide SubscribeAll;
      OneViewChanged(views, Views(ts), t);
    }

    /** router.py:148-170 */
    method Activate(newServer: LoopbackTransport?, ghost ts: map<nat, LoopbackTransport>)
      requires Valid() && Numbered(ts) && (newServer == null || newServer in ts.Values)
      modifies this, server, newServer
      ensures Valid() && Registered() == old(Registered()) && server == newServer
      ensures newServer == old(server) ==>
                activated == old(activated) && (server != null ==> server.View() == old(server.View()))
      ensures newServer != old(server) && old(server) != null ==>
                old(server).View() == UnsubscribeAll(old(server.View()), old(activated))
      ensures newServer != old(server) && newServer == null && old(server) != null ==> activated == NO_NAMES
      ensures newServer != old(server) && newServer != null ==>
                activated == Registered() && newServer.View() == SubscribeAll(old(newServer.View()), id, Registered())
      ensures Numbered(ts) && AsLife(ts) == Do(old(AsLife(ts)), Cmd.Activate(NumberOf(ts, newServer)))
    {
      hide DoRegister, DoDeactivate, UnsubscribeAll, SubscribeAll, Manager.Valid, Views;
      if server == newServer {
        return;
      }
      ghost var before := AsLife(ts);
      if server != null {
        Deactivate(ts);
      }
      ghost var life := AsLife(ts);
      NothingToLeave(before);
      assert life == DoDeactivate(before);
      server := newServer;
      assert AsLife(ts) == life.(server := NumberOf(ts, newServer));
      if server == null {
        return;
      }
      SubscribeRegistered(ts);
    }

    lemma NothingToLeave(l: Life)
      ensures l.server == None ==> DoDeactivate(l) == l
      ensures DoDeactivate(l).id == l.id && DoDeactivate(l).registered == l.registered
    {
    }
  }

  /** The life after subscribing all registered names on transport `t`. */
  function Subscribed(l: Life, t: nat): Life
  {
    l.(transports := l.transports[t := SubscribeAll(SubsAt(l, t), l.id, l.registered)], activated := l.registered)
  }
}
