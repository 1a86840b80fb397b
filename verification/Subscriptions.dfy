/**
  A router's life as values: what it registered, where it is activated, and which subscriptions the
  transports hold.  `Router` performs these steps on the heap.
 */
module Subscriptions {
  import opened Wrappers
  import opened Sequences

  datatype Kind = Rpc | Queue | Broadcast

  /** The callback a router subscribes for one name. */
  datatype Callback = Callback(router: nat, kind: Kind, name: string)

  /** The three callback dictionaries of a transport. */
  datatype Subs = Subs(
    requests: map<string, Callback>,
    events: map<string, Callback>,
    broadcasts: map<string, seq<Callback>>)

  /** Names per kind. */
  datatype Names = Names(rpc: seq<string>, queue: seq<string>, broadcast: seq<string>)

  const NO_NAMES := Names([], [], [])

  function BroadcastsOf(s: Subs, name: string): seq<Callback>
  {
    if name in s.broadcasts then s.broadcasts[name] else []
  }

  function Subscribe(s: Subs, id: nat, kind: Kind, name: string): Subs
  {
    var cb := Callback(id, kind, name);
    match kind
    case Rpc => s.(requests := s.requests[name := cb])
    case Queue => s.(events := s.events[name := cb])
    case Broadcast => s.(broadcasts := s.broadcasts[name := BroadcastsOf(s, name) + [cb]])
  }

  function Unsubscribe(s: Subs, kind: Kind, name: string): Subs
  {
    match kind
    case Rpc => s.(requests := s.requests - {name})
    case Queue => s.(events := s.events - {name})
    case Broadcast => if name in s.broadcasts then s.(broadcasts := s.broadcasts[name := []]) else s
  }

  function SubscribeEach(s: Subs, id: nat, kind: Kind, names: seq<string>): Subs
  {
    if |names| == 0 then s
    else Subscribe(SubscribeEach(s, id, kind, names[..|names| - 1]), id, kind, names[|names| - 1])
  }

  function UnsubscribeEach(s: Subs, kind: Kind, names: seq<string>): Subs
  {
    if |names| == 0 then s
    else Unsubscribe(UnsubscribeEach(s, kind, names[..|names| - 1]), kind, names[|names| - 1])
  }

  function SubscribeAll(s: Subs, id: nat, n: Names): Subs
  {
    SubscribeEach(SubscribeEach(SubscribeEach(s, id, Rpc, n.rpc), id, Queue, n.queue), id, Broadcast, n.broadcast)
  }

  function UnsubscribeAll(s: Subs, n: Names): Subs
  {
    UnsubscribeEach(UnsubscribeEach(UnsubscribeEach(s, Rpc, n.rpc), Queue, n.queue), Broadcast, n.broadcast)
  }

  // ---- What the folds do ----------------------------------------------------------------------------

  /** How many live subscriptions a transport holds for one kind and name, and whose they are. */
  function Held(s: Subs, kind: Kind, name: string): seq<Callback>
  {
    match kind
    case Rpc => if name in s.requests then [s.requests[name]] else []
    case Queue => if name in s.events then [s.events[name]] else []
    case Broadcast => BroadcastsOf(s, name)
  }

  function NamesOf(n: Names, kind: Kind): seq<string>
  {
    match kind case Rpc => n.rpc case Queue => n.queue case Broadcast => n.broadcast
  }

  lemma {:induction false} SubscribeEachHeld(s: Subs, id: nat, kind: Kind, names: seq<string>, k: Kind, x: string)
    requires Distinct(names)
    ensures Held(SubscribeEach(s, id, kind, names), k, x)
            == if k == kind && x in names
               then (if k.Broadcast? then Held(s, k, x) else []) + [Callback(id, kind, x)]
               else Held(s, k, x)
    decreases |names|
  {
    if |names| > 0 {
      var init, last := names[..|names| - 1], names[|names| - 1];
      assert names == init + [last];
      SubscribeEachHeld(s, id, kind, init, k, x);
      if k == kind && x == last { assert x !in init; }
    }
  }

  lemma {:induction false} UnsubscribeEachHeld(s: Subs, kind: Kind, names: seq<string>, k: Kind, x: string)
    ensures Held(UnsubscribeEach(s, kind, names), k, x) == if k == kind && x in names then [] else Held(s, k, x)
    decreases |names|
  {
    if |names| > 0 {
      var init, last := names[..|names| - 1], names[|names| - 1];
      assert names == init + [last];
      UnsubscribeEachHeld(s, kind, init, k, x);
    }
  }

  ghost predicate NamesDistinct(n: Names) { Distinct(n.rpc) && Distinct(n.queue) && Distinct(n.broadcast) }

  /** Subscribing all names of a router adds exactly one subscription per recorded name. */
  lemma SubscribeAllHeld(s: Subs, id: nat, n: Names, k: Kind, x: string)
    requires NamesDistinct(n)
    ensures Held(SubscribeAll(s, id, n), k, x)
            == if x in NamesOf(n, k) then (if k.Broadcast? then Held(s, k, x) else []) + [Callback(id, k, x)]
               else Held(s, k, x)
  {
    var s1 := SubscribeEach(s, id, Rpc, n.rpc);
    var s2 := SubscribeEach(s1, id, Queue, n.queue);
    SubscribeEachHeld(s, id, Rpc, n.rpc, k, x);
    SubscribeEachHeld(s1, id, Queue, n.queue, k, x);
    SubscribeEachHeld(s2, id, Broadcast, n.broadcast, k, x);
  }

  lemma UnsubscribeAllHeld(s: Subs, n: Names, k: Kind, x: string)
    ensures Held(UnsubscribeAll(s, n), k, x) == if x in NamesOf(n, k) then [] else Held(s, k, x)
  {
    var s1 := UnsubscribeEach(s, Rpc, n.rpc);
    var s2 := UnsubscribeEach(s1, Queue, n.queue);
    UnsubscribeEachHeld(s, Rpc, n.rpc, k, x);
    UnsubscribeEachHeld(s1, Queue, n.queue, k, x);
    UnsubscribeEachHeld(s2, Broadcast, n.broadcast, k, x);
  }

  // ---- The life of a router -------------------------------------------------------------------------

  /** `activated` are the names recorded by the last activation; transports are numbered. */
  datatype Life = Life(id: nat, registered: Names, server: Option<nat>, activated: Names, transports: map<nat, Subs>)

  datatype Cmd =
    | Register(kind: Kind, name: string)
    | Activate(server: Option<nat>)
    | Deactivate

  function AddName(n: Names, kind: Kind, name: string): Names
  {
    match kind
    case Rpc => n.(rpc := n.rpc + [name])
    case Queue => n.(queue := n.queue + [name])
    case Broadcast => n.(broadcast := n.broadcast + [name])
  }

  function SubsAt(l: Life, t: nat): Subs
  {
    if t in l.transports then l.transports[t] else NO_SUBS
  }

  /** `LateRegistration` after activation and `RegisteringTwice` leave everything as it was. */
  function DoRegister(l: Life, kind: Kind, name: string): Life
  {
    if l.server.Some? || name in NamesOf(l.registered, kind) then l
    else l.(registered := AddName(l.registered, kind, name))
  }

  function DoDeactivate(l: Life): Life
  {
    match l.server
    case None => l
    case Some(t) =>
      l.(transports := l.transports[t := UnsubscribeAll(SubsAt(l, t), l.activated)],
         activated := NO_NAMES, server := None)
  }

  function DoActivate(l: Life, server: Option<nat>): Life
  {
    if l.server == server then l
    else
      var l1 := DoDeactivate(l);
      match server
      case None => l1
      case Some(t) =>
        l1.(transports := l1.transports[t := SubscribeAll(SubsAt(l1, t), l.id, l.registered)],
            activated := l.registered, server := server)
  }

  function Do(l: Life, c: Cmd): Life
  {
    match c
    case Register(kind, name) => DoRegister(l, kind, name)
    case Activate(server) => DoActivate(l, server)
    case Deactivate => DoDeactivate(l)
  }

  function DoAll(l: Life, cs: seq<Cmd>): Life
    decreases |cs|
  {
    if |cs| == 0 then l else Do(DoAll(l, cs[..|cs| - 1]), cs[|cs| - 1])
  }

  const NO_SUBS := Subs(map[], map[], map[])

  /** A router and transports just constructed. */
  predicate Newborn(l: Life)
  {
    && l.registered == NO_NAMES && l.server == None && l.activated == NO_NAMES
    && forall t :: t in l.transports ==> l.transports[t] == NO_SUBS
  }

  /** On transport `t` the one subscription for kind `k` and name `x` is this router's - or there is none. */
  predicate SubscribedExactly(l: Life, t: nat, k: Kind, x: string)
  {
    Held(SubsAt(l, t), k, x)
    == if l.server == Some(t) && x in NamesOf(l.registered, k) then [Callback(l.id, k, x)] else []
  }

  ghost predicate Consistent(l: Life)
  {
    && NamesDistinct(l.registered)
    && l.activated == (if l.server.Some? then l.registered else NO_NAMES)
    && (forall t: nat, k, x :: SubscribedExactly(l, t, k, x))
  }

  lemma DeactivateKeeps(l: Life)
    requires Consistent(l)
    ensures Consistent(DoDeactivate(l)) && DoDeactivate(l).server == None && DoDeactivate(l).registered == l.registered
  {
    var l' := DoDeactivate(l);
    if l.server.Some? {
      forall t: nat, k, x ensures SubscribedExactly(l', t, k, x) {
        assert SubscribedExactly(l, t, k, x);
        if t == l.server.value { UnsubscribeAllHeld(SubsAt(l, t), l.activated, k, x); }
      }
    }
  }

  lemma ActivateKeeps(l: Life, server: Option<nat>)
    requires Consistent(l)
    ensures Consistent(DoActivate(l, server)) && DoActivate(l, server).server == server
  {
    if l.server != server {
      DeactivateKeeps(l);
      var l1, l' := DoDeactivate(l), DoActivate(l, server);
      if server.Some? {
        forall t: nat, k, x ensures SubscribedExactly(l', t, k, x) {
          assert SubscribedExactly(l1, t, k, x);
          if t == server.value { SubscribeAllHeld(SubsAt(l1, t), l.id, l.registered, k, x); }
        }
      }
    }
  }

  lemma RegisterKeeps(l: Life, kind: Kind, name: string)
    requires Consistent(l)
    ensures Consistent(DoRegister(l, kind, name))
  {
    var l' := DoRegister(l, kind, name);
    forall t: nat, k, x ensures SubscribedExactly(l', t, k, x) {
      assert SubscribedExactly(l, t, k, x);
    }
  }

  /**
    Over every sequence of registrations, activations, switches and deactivations: while a transport is
    active the recorded names are the registered ones, without duplicates, and this router's
    subscriptions are exactly one per recorded name on that transport and none on any other - so
    switching moves all of them and deactivating leaves none.
   */
  lemma {:induction false} LifeIsConsistent(l: Life, cs: seq<Cmd>)
    requires Newborn(l)
    ensures Consistent(DoAll(l, cs))
    decreases |cs|
  {
    if |cs| > 0 {
      var before := DoAll(l, cs[..|cs| - 1]);
      LifeIsConsistent(l, cs[..|cs| - 1]);
      match cs[|cs| - 1]
      case Register(kind, name) => RegisterKeeps(before, kind, name);
      case Activate(server) => ActivateKeeps(before, server);
      case Deactivate => DeactivateKeeps(before);
    }
  }

  /** The names registered are exactly those of the registrations made while no server was active. */
  lemma {:induction false} RegisteredExactly(l: Life, cs: seq<Cmd>, k: Kind, x: string)
    requires Newborn(l)
    ensures x in NamesOf(DoAll(l, cs).registered, k) <==>
            exists i :: 0 <= i < |cs| && cs[i] == Register(k, x) && DoAll(l, cs[..i]).server == None
    decreases |cs|
  {
    if cs != [] {
      var n := |cs| - 1;
      RegisteredExactly(l, cs[..n], k, x);
      assert forall i :: 0 <= i <= n ==> cs[..n][..i] == cs[..i];
      hide Consistent;
      DoRegisters(DoAll(l, cs[..n]), cs[n], k, x);
      if x in NamesOf(DoAll(l, cs[..n]).registered, k) {
        var i :| 0 <= i < n && cs[..n][i] == Register(k, x) && DoAll(l, cs[..n][..i]).server == None;
        assert cs[i] == Register(k, x) && DoAll(l, cs[..i]).server == None;
      }
      if i :| 0 <= i < n && cs[i] == Register(k, x) && DoAll(l, cs[..i]).server == None {
        assert cs[..n][i] == Register(k, x) && DoAll(l, cs[..n][..i]).server == None;
      }
    }
  }

  lemma DoRegisters(l: Life, c: Cmd, k: Kind, x: string)
    ensures x in NamesOf(Do(l, c).registered, k) <==>
            x in NamesOf(l.registered, k) || (c == Register(k, x) && l.server == None)
  {
    hide SubscribeAll, UnsubscribeAll;
  }
}
