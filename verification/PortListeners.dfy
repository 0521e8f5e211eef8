/**
 The port listeners and their manager as the long-lived objects they are: fields updated in place,
 each method proved against the value-level functions the step system is built from.
 */
module PortListeners {
  import opened Common
  import opened Messages

  class PortListener {
    const port: Port
    const name: string
    var bound: Option<Bound>
    var pending: set<ConnId>
    var active: set<ConnId>

    ghost function View(): Listener
      reads this
    {
      Listener(bound, pending, active)
    }

    constructor (port: Port, name: string)
      ensures this.port == port && this.name == name && View() == FRESH_LISTENER
      ensures bound == None && pending == {} && active == {}
    {
      this.port, this.name := port, name;
      bound, pending, active := None, {}, {};
    }

    method BindClient(x: ClientId, s: SessionId)
      modifies this
      ensures View() == old(View()).Bind(x, s)
      ensures bound == Some(Bound(x, s)) && pending == old(pending) && active == old(active)
    {
      bound := Some(Bound(x, s));
    }

    method UnbindClient(x: ClientId) returns (was: bool)
      modifies this
      ensures View() == old(View()).Unbind(x)
      ensures was <==> old(bound).Some? && old(bound).value.client == x
      ensures bound == (if was then None else old(bound)) && pending == old(pending) && active == old(active)
    {
      was := bound.Some? && bound.value.client == x;
      if was { bound := None; }
    }

    /** The two registrations at the start of a handler. */
    method Register(c: ConnId)
      modifies this
      ensures bound == old(bound) && pending == old(pending) + {c} && active == old(active) + {c}
    {
      pending := pending + {c};
      active := active + {c};
    }

    method HandleClientMessage(m: Message) returns (d: Delivery)
      modifies this
      ensures View() == old(View()).After(m) && bound == old(bound)
      ensures forall c :: c in pending <==> c in old(pending) && m != Connected(c) && m != ConnectFailed(c)
      ensures forall c :: c in active <==> c in old(active) && m != ConnectFailed(c) && m != Close(c)
      ensures d == old(View()).Gives(m)
      ensures forall c :: d == Signal(c) <==> m == Connected(c) && c in old(pending)
      ensures forall c, data :: d == Forward(c, data) <==> m == Data(c, data) && c in old(active)
    {
      d := Nothing;
      match m {
        case Connected(c) =>
          if c in pending {
            pending := pending - {c};
            d := Signal(c);
          }
        case ConnectFailed(c) =>
          pending := pending - {c};
          active := active - {c};
        case Data(c, data) => if c in active { d := Forward(c, data); }
        case Close(c) => active := active - {c};
        case _ =>
      }
    }

    method CleanupConnection(c: ConnId)
      modifies this
      ensures View() == old(View()).Cleanup(c) && bound == old(bound)
      ensures forall o :: o in pending <==> o in old(pending) && o != c
      ensures forall o :: o in active <==> o in old(active) && o != c
    {
      pending := pending - {c};
      active := active - {c};
    }

    method ClearAllConnections()
      modifies this
      ensures View() == old(View()).ClearAll()
      ensures pending == {} && active == {} && bound == old(bound)
    {
      active := {};
      pending := {};
    }
  }

  /** The first mapping whose listener neither exists nor can be started. */
  function FirstFailure(ports: set<Port>, ms: seq<PortMapping>, startable: set<Port>): (n: nat)
    ensures n <= |ms|
    ensures forall i :: 0 <= i < n ==> ms[i].remotePort in ports || ms[i].remotePort in startable
    ensures n < |ms| ==> ms[n].remotePort !in ports && ms[n].remotePort !in startable
  {
    if ms == [] then 0
    else
      var n := FirstFailure(ports, ms[..|ms| - 1], startable);
      if n < |ms| - 1 then n
      else if ms[|ms| - 1].remotePort in ports || ms[|ms| - 1].remotePort in startable then |ms|
      else |ms| - 1
  }

  class PortListenerManager {
    var listeners: map<Port, PortListener>

    /** Each listener sits under its own port, so no two ports share an object. */
    ghost predicate Valid()
      reads this, listeners.Values
    {
      forall p :: p in listeners ==> listeners[p].port == p
    }

    ghost function View(): Listeners
      reads this, listeners.Values
    {
      map p | p in listeners :: listeners[p].View()
    }

    constructor ()
      ensures Valid() && View() == map[]
    {
      listeners := map[];
    }

    /** Creates and starts the listener when there is none; `starts` says whether the port can be opened. */
    method EnsureListener(port: Port, name: string, starts: bool) returns (found: Option<PortListener>)
      requires Valid()
      modifies this
      ensures Valid()
      ensures found.None? <==> port !in old(listeners) && !starts
      ensures found.None? ==> listeners == old(listeners)
      ensures found.Some? ==> found.value.port == port && (port !in old(listeners) ==> fresh(found.value))
      ensures found.Some? ==> listeners == old(listeners)[port := found.value]
      ensures found.Some? && port in old(listeners) ==> found.value == old(listeners)[port]
      ensures found.Some? && port !in old(listeners) ==> found.value.View() == FRESH_LISTENER
    {
      if port in listeners {
        found := Some(listeners[port]);
      } else if starts {
        var l := new PortListener(port, name);
        listeners := listeners[port := l];
        found := Some(l);
      } else {
        found := None;
      }
    }

    /** One mapping: ensure its listener, then bind it. */
    method BindPort(x: ClientId, mapping: PortMapping, s: SessionId, starts: bool) returns (ok: bool)
      requires Valid()
      modifies this, listeners.Values
      ensures Valid() && fresh(listeners.Values - old(listeners.Values))
      ensures ok <==> mapping.remotePort in old(listeners) || starts
      ensures !ok ==> View() == old(View())
      ensures ok ==> var p := mapping.remotePort;
                     var before := old(View());
                     View() == before[p := (if p in before then before[p] else FRESH_LISTENER).Bind(x, s)]
    {
      var found := EnsureListener(mapping.remotePort, mapping.name, starts);
      if found.None? { return false; }
      label bind:
      found.value.BindClient(x, s);
      assert forall q :: q in listeners && q != mapping.remotePort ==> listeners[q].View() == old@bind(listeners[q].View());
      return true;
    }

    /** Binds the mappings in order and stops at the first port that cannot be opened; what was bound stays bound. */
    method BindPortsForClient(x: ClientId, ms: seq<PortMapping>, s: SessionId, startable: set<Port>) returns (ok: bool)
      requires Valid()
      modifies this, listeners.Values
      ensures Valid() && fresh(listeners.Values - old(listeners.Values))
      ensures var n := FirstFailure(old(View().Keys), ms, startable);
              View() == BindAll(old(View()), x, s, ms[..n]) && (ok <==> n == |ms|)
    {
      ghost var start := View();
      for i := 0 to |ms|
        invariant Valid() && fresh(listeners.Values - old(listeners.Values))
        invariant View() == BindAll(start, x, s, ms[..i])
        invariant forall j :: 0 <= j < i ==> ms[j].remotePort in start || ms[j].remotePort in startable
      {
        var p := ms[i].remotePort;
        assert ms[..i + 1][..i] == ms[..i];
        BoundKeys(start, x, s, ms[..i], p);
        assert p in View() <==> p in listeners;
        var bound := BindPort(x, ms[i], s, p in startable);
        if !bound {
          FailureAt(start.Keys, ms, startable, i);
          return false;
        }
      }
      assert ms[..|ms|] == ms;
      if FirstFailure(start.Keys, ms, startable) < |ms| { assert false; }
      return true;
    }

    method UnbindClient(x: ClientId)
      requires Valid()
      modifies listeners.Values
      ensures Valid() && View() == UnbindAll(old(View()), x)
    {
      var rest := listeners.Keys;
      while rest != {}
        invariant Valid() && rest <= listeners.Keys
        invariant forall p :: p in listeners ==>
                    listeners[p].View() == if p in rest then old(listeners[p].View()) else old(listeners[p].View()).Unbind(x)
        decreases rest
      {
        var p :| p in rest;
        var _ := listeners[p].UnbindClient(x);
        rest := rest - {p};
      }
    }

    /** The message reaches the port if it is bound to the client; other ports are not touched. */
    method OfferMessage(p: Port, x: ClientId, m: Message) returns (d: Option<Delivery>)
      requires Valid() && p in listeners
      modifies listeners[p]
      ensures d == if old(listeners[p].View()).BoundTo(x) then Some(old(listeners[p].View()).Gives(m)) else None
      ensures listeners[p].View() == if d.Some? then old(listeners[p].View()).After(m) else old(listeners[p].View())
      ensures forall q :: q in listeners && q != p ==> listeners[q].View() == old(listeners[q].View())
    {
      var l := listeners[p];
      d := None;
      if l.bound.Some? && l.bound.value.client == x {
        var given := l.HandleClientMessage(m);
        d := Some(given);
      }
    }

    /** Walks the listeners in any order and offers each the message. */
    method OfferToAll(x: ClientId, m: Message) returns (given: map<Port, Delivery>)
      requires Valid()
      modifies listeners.Values
      ensures Valid() && given.Keys <= listeners.Keys
      ensures forall p :: p in listeners ==>
                var l := old(listeners[p].View());
                && listeners[p].View() == (if l.BoundTo(x) then l.After(m) else l)
                && (p in given <==> l.BoundTo(x)) && (p in given ==> given[p] == l.Gives(m))
    {
      var rest := listeners.Keys;
      given := map[];
      while rest != {}
        invariant Valid() && rest <= listeners.Keys && given.Keys <= listeners.Keys - rest
        invariant forall p :: p in rest ==> listeners[p].View() == old(listeners[p].View())
        invariant forall p :: p in listeners && p !in rest ==>
                    var l := old(listeners[p].View());
                    && listeners[p].View() == (if l.BoundTo(x) then l.After(m) else l)
                    && (p in given <==> l.BoundTo(x)) && (p in given ==> given[p] == l.Gives(m))
        decreases rest
      {
        var p :| p in rest;
        var d := OfferMessage(p, x, m);
        if d.Some? { given := given[p := d.value]; }
        rest := rest - {p};
      }
    }

    /** Every port bound to the client gets the message. */
    method HandleClientMessage(x: ClientId, m: Message) returns (given: map<Port, Delivery>)
      requires Valid()
      modifies listeners.Values
      ensures Valid() && View() == Broadcast(old(View()), x, m)
      ensures forall p :: p in given <==> p in old(View()) && old(View())[p].BoundTo(x)
      ensures forall p :: p in given ==> given[p] == old(View())[p].Gives(m)
    {
      given := OfferToAll(x, m);
    }

    /** One mapping entry of a takeover: clears a listener of the same client that has active connections, then binds it. */
    method SwitchPort(x: ClientId, s: SessionId, p: Port) returns (found: bool)
      requires Valid()
      modifies listeners.Values
      ensures Valid() && (found <==> p in old(View()))
      ensures View() == if found then old(View())[p := old(View())[p].Switch(x, s)] else old(View())
    {
      found := p in listeners;
      if found {
        label visit:
        var l := listeners[p];
        if l.bound.Some? && l.bound.value.client == x && l.active != {} {
          l.ClearAllConnections();
        }
        l.BindClient(x, s);
        assert forall q :: q in listeners && q != p ==> listeners[q].View() == old@visit(listeners[q].View());
      }
    }

    /** `None` is the error "no ports were switched". */
    method SwitchClientBinding(x: ClientId, s: SessionId, ms: seq<PortMapping>) returns (switched: Option<nat>)
      requires Valid()
      modifies listeners.Values
      ensures Valid() && View() == SwitchAll(old(View()), x, s, ms)
      ensures switched.None? <==> ms != [] && forall m :: m in ms ==> m.remotePort !in old(View())
      ensures switched.Some? ==> switched.value == |set i | 0 <= i < |ms| && ms[i].remotePort in old(View())|
    {
      var count := 0;
      ghost var start := View();
      for i := 0 to |ms|
        invariant Valid()
        invariant View() == SwitchAll(start, x, s, ms[..i])
        invariant count == Served(start, ms[..i])
      {
        assert ms[..i + 1][..i] == ms[..i];
        var found := SwitchPort(x, s, ms[i].remotePort);
        if found { count := count + 1; }
      }
      assert ms[..|ms|] == ms;
      ServedZero(start, ms);
      ServedCount(start, ms);
      switched := if count == 0 && ms != [] then None else Some(count);
    }
  }

  /** Binding adds mapped ports only. */
  lemma BoundKeys(ls: Listeners, x: ClientId, s: SessionId, ms: seq<PortMapping>, p: Port)
    ensures p in BindAll(ls, x, s, ms) ==> p in ls || exists j :: 0 <= j < |ms| && ms[j].remotePort == p
    ensures p in ls ==> p in BindAll(ls, x, s, ms)
  {
    BindAllAt(ls, x, s, ms, p);
    if Maps(ms, p) {
      var m :| m in ms && m.remotePort == p;
      var j :| 0 <= j < |ms| && ms[j] == m;
      assert ms[j].remotePort == p;
    }
  }

  lemma FailureAt(ports: set<Port>, ms: seq<PortMapping>, startable: set<Port>, i: nat)
    requires i < |ms| && ms[i].remotePort !in ports && ms[i].remotePort !in startable
    requires forall j :: 0 <= j < i ==> ms[j].remotePort in ports || ms[j].remotePort in startable
    ensures FirstFailure(ports, ms, startable) == i
  {
  }
}
