/** src/lib.rs `build_rewrite_map`: which address clients are told for each broker, and which
    listener serves it. */
module Routing {
  import opened Wire
  import opened Mapping
  import opened Rewrite
  import Codec

  datatype Address = Address(ip: nat, port: PortNumber)
  datatype Target = Target(nodeId: Int32, realAddr: Address, realHost: string)
  datatype Listener = Listener(nodeId: Int32, port: PortNumber, bindAddr: string, target: Target)

  type NodePorts = map<Int32, (string, PortNumber)>

  datatype Failure = BadMapping | NotAnAddress | UnknownBroker
  datatype Built = Built(nodePorts: NodePorts, listeners: seq<Listener>) | Failed(entry: nat, why: Failure)

  /** Resolving a bootstrap server asks the DNS; `resolve` is what it answers. */
  type Resolver = string -> Option<Address>

  /** The host of a bootstrap server: what is before its last colon, or all of it. */
  function ServerHost(server: string): string {
    match SplitHost(server)
    case Some(hp) => hp.0
    case None => server
  }

  predicate Matches(t: Target, addr: Address, host: string) {
    t.realAddr == addr || t.realHost == host
  }

  /** The first target that matches. */
  function Find(targets: seq<Target>, addr: Address, host: string): Option<Target> {
    if targets == [] then None
    else if Matches(targets[0], addr, host) then Some(targets[0])
    else Find(targets[1..], addr, host)
  }

  lemma {:induction false} FindIsFirst(targets: seq<Target>, addr: Address, host: string)
    ensures match Find(targets, addr, host)
            case None => forall i :: 0 <= i < |targets| ==> targets[i].realAddr != addr && targets[i].realHost != host
            case Some(t) => exists i :: 0 <= i < |targets| && targets[i] == t && (t.realAddr == addr || t.realHost == host)
                                        && forall j :: 0 <= j < i ==> targets[j].realAddr != addr && targets[j].realHost != host
  {
    if targets != [] {
      FindIsFirst(targets[1..], addr, host);
      if Matches(targets[0], addr, host) {
        assert targets[0] == Find(targets, addr, host).value;
      } else if Find(targets[1..], addr, host).Some? {
        var i :| 0 <= i < |targets[1..]| && targets[1..][i] == Find(targets[1..], addr, host).value
          && forall j :: 0 <= j < i ==> !Matches(targets[1..][j], addr, host);
        assert forall j :: 0 <= j < i + 1 ==> !Matches(targets[j], addr, host) by {
          forall j | 0 <= j < i + 1 ensures !Matches(targets[j], addr, host) {
            if j > 0 {
              assert targets[j] == targets[1..][j - 1];
            }
          }
        }
        assert targets[i + 1] == Find(targets, addr, host).value;
      } else {
        assert forall i :: 1 <= i < |targets| ==> targets[i] == targets[1..][i - 1];
      }
    }
  }

  // ---- One entry, and all of them ----

  datatype Config = Config(servers: seq<string>, mappings: seq<string>, advertiseHost: Option<string>)

  function Fallback(c: Config): string {
    if c.advertiseHost.Some? then c.advertiseHost.value else ""
  }

  /** Servers and mappings are taken in pairs; a surplus on one side is left over. */
  function Entries(c: Config): nat {
    if |c.servers| <= |c.mappings| then |c.servers| else |c.mappings|
  }

  datatype Entry = Good(mapped: Mapped, target: Target) | Bad(why: Failure)

  function EntryAt(c: Config, targets: seq<Target>, resolve: Resolver, i: nat): Entry
    requires i < Entries(c)
  {
    match ParseEntry(c.mappings[i], Fallback(c))
    case None => Bad(BadMapping)
    case Some(mapped) =>
      match resolve(c.servers[i])
      case None => Bad(NotAnAddress)
      case Some(addr) =>
        match Find(targets, addr, ServerHost(c.servers[i]))
        case None => Bad(UnknownBroker)
        case Some(t) => Good(mapped, t)
  }

  function ListenerOf(e: Entry): Listener
    requires e.Good?
  {
    Listener(e.target.nodeId, e.mapped.port, e.mapped.bindAddr, e.target)
  }

  /** What the first n entries, all good, leave in the map: later entries win. */
  ghost predicate IsMapOf(m: NodePorts, c: Config, targets: seq<Target>, resolve: Resolver, n: nat)
    requires n <= Entries(c)
  {
    && (forall i :: 0 <= i < n ==>
          EntryAt(c, targets, resolve, i).Good? && EntryAt(c, targets, resolve, i).target.nodeId in m)
    && (forall node :: node in m ==> exists i: nat :: IsLast(m, c, targets, resolve, n, node, i))
  }

  /** Entry i is the last for the node, and its advertised address is the node's. */
  ghost predicate IsLast(m: NodePorts, c: Config, targets: seq<Target>, resolve: Resolver, n: nat, node: Int32, i: nat)
    requires n <= Entries(c) && node in m
  {
    && i < n
    && (var e := EntryAt(c, targets, resolve, i);
        e.Good? && e.target.nodeId == node && m[node] == (e.mapped.host, e.mapped.port))
    && forall j :: i < j < n ==>
         EntryAt(c, targets, resolve, j).Good? ==> EntryAt(c, targets, resolve, j).target.nodeId != node
  }

  ghost predicate IsListenersOf(ls: seq<Listener>, c: Config, targets: seq<Target>, resolve: Resolver, n: nat)
    requires n <= Entries(c)
  {
    |ls| == n && forall i :: 0 <= i < n ==>
      EntryAt(c, targets, resolve, i).Good? && ls[i] == ListenerOf(EntryAt(c, targets, resolve, i))
  }

  ghost predicate IsBuilt(b: Built, c: Config, targets: seq<Target>, resolve: Resolver) {
    match b
    case Failed(i, why) =>
      && i < Entries(c) && EntryAt(c, targets, resolve, i) == Bad(why)
      && forall j :: 0 <= j < i ==> EntryAt(c, targets, resolve, j).Good?
    case Built(m, ls) => IsMapOf(m, c, targets, resolve, Entries(c)) && IsListenersOf(ls, c, targets, resolve, Entries(c))
  }

  lemma MapGrows(m: NodePorts, c: Config, targets: seq<Target>, resolve: Resolver, n: nat)
    requires n < Entries(c) && IsMapOf(m, c, targets, resolve, n) && EntryAt(c, targets, resolve, n).Good?
    ensures var e := EntryAt(c, targets, resolve, n);
            IsMapOf(m[e.target.nodeId := (e.mapped.host, e.mapped.port)], c, targets, resolve, n + 1)
  {
    hide EntryAt;
    var e := EntryAt(c, targets, resolve, n);
    var after := m[e.target.nodeId := (e.mapped.host, e.mapped.port)];
    var end := n + 1;
    forall node | node in after ensures exists i: nat :: IsLast(after, c, targets, resolve, end, node, i) {
      if node == e.target.nodeId {
        assert IsLast(after, c, targets, resolve, end, node, n);
      } else {
        var i: nat :| IsLast(m, c, targets, resolve, n, node, i);
        assert IsLast(after, c, targets, resolve, end, node, i);
      }
    }
  }

  method BuildRewriteMap(c: Config, targets: seq<Target>, resolve: Resolver) returns (b: Built)
    ensures IsBuilt(b, c, targets, resolve)
  {
    hide ParseEntry, IsMapOf;
    var fallback := if c.advertiseHost.Some? then c.advertiseHost.value else "";
    var nodePorts: NodePorts := map[];
    var listeners: seq<Listener> := [];
    assert IsMapOf(nodePorts, c, targets, resolve, 0) by {
      NothingMapped(c, targets, resolve);
    }
    for i := 0 to Entries(c)
      invariant IsMapOf(nodePorts, c, targets, resolve, i)
      invariant IsListenersOf(listeners, c, targets, resolve, i)
    {
      var parsed := ParseEntry(c.mappings[i], fallback);
      if parsed.None? {
        return Failed(i, BadMapping);
      }
      var addr := resolve(c.servers[i]);
      if addr.None? {
        return Failed(i, NotAnAddress);
      }
      var target := Find(targets, addr.value, ServerHost(c.servers[i]));
      if target.None? {
        return Failed(i, UnknownBroker);
      }
      MapGrows(nodePorts, c, targets, resolve, i);
      nodePorts := nodePorts[target.value.nodeId := (parsed.value.host, parsed.value.port)];
      listeners := listeners + [Listener(target.value.nodeId, parsed.value.port, parsed.value.bindAddr, target.value)];
    }
    return Built(nodePorts, listeners);
  }

  lemma NothingMapped(c: Config, targets: seq<Target>, resolve: Resolver)
    ensures IsMapOf(map[], c, targets, resolve, 0)
  {
  }

  // ---- What clients can rely on ----

  /** The mapped nodes are exactly the listeners' nodes, and each mapped node has a listener of its
      own that was advertised under just the address the map gives for it. */
  lemma RoutingIsClosed(b: Built, c: Config, targets: seq<Target>, resolve: Resolver)
    requires b.Built? && IsBuilt(b, c, targets, resolve)
    ensures forall node :: node in b.nodePorts <==>
              exists i :: 0 <= i < |b.listeners| && b.listeners[i].nodeId == node
    ensures forall node :: node in b.nodePorts ==>
              exists i :: 0 <= i < |b.listeners| && b.listeners[i].nodeId == node
                && b.listeners[i].target.nodeId == node && b.listeners[i].port == b.nodePorts[node].1
                && (var x := ParseEntry(c.mappings[i], Fallback(c));
                    x.Some? && x.value.host == b.nodePorts[node].0 && x.value.bindAddr == b.listeners[i].bindAddr)
  {
    hide ParseEntry, Find;
    forall node | node in b.nodePorts
      ensures exists i :: 0 <= i < |b.listeners| && b.listeners[i].nodeId == node
                && b.listeners[i].target.nodeId == node && b.listeners[i].port == b.nodePorts[node].1
                && (var x := ParseEntry(c.mappings[i], Fallback(c));
                    x.Some? && x.value.host == b.nodePorts[node].0 && x.value.bindAddr == b.listeners[i].bindAddr)
    {
      var i: nat :| IsLast(b.nodePorts, c, targets, resolve, Entries(c), node, i);
      assert b.listeners[i] == ListenerOf(EntryAt(c, targets, resolve, i));
    }
    forall i | 0 <= i < |b.listeners| ensures b.listeners[i].nodeId in b.nodePorts {
      assert b.listeners[i] == ListenerOf(EntryAt(c, targets, resolve, i));
    }
  }

  /** The advertised addresses of the entries are pairwise distinct. */
  ghost predicate DistinctAdvertised(c: Config) {
    forall i, j :: 0 <= i < j < Entries(c) ==>
      var x, y := ParseEntry(c.mappings[i], Fallback(c)), ParseEntry(c.mappings[j], Fallback(c));
      x.Some? && y.Some? ==> x.value.host != y.value.host || x.value.port != y.value.port
  }

  lemma GoodEntry(c: Config, targets: seq<Target>, resolve: Resolver, i: nat)
    requires i < Entries(c) && EntryAt(c, targets, resolve, i).Good?
    ensures ParseEntry(c.mappings[i], Fallback(c)) == Some(EntryAt(c, targets, resolve, i).mapped)
  {
    hide ParseEntry, Find;
  }

  /** The entry a node's address comes from. */
  lemma SourceOf(b: Built, c: Config, targets: seq<Target>, resolve: Resolver, node: Int32) returns (i: nat)
    requires b.Built? && IsBuilt(b, c, targets, resolve) && node in b.nodePorts
    ensures i < Entries(c) && EntryAt(c, targets, resolve, i).Good? && EntryAt(c, targets, resolve, i).target.nodeId == node
    ensures var x := ParseEntry(c.mappings[i], Fallback(c)); x.Some? && b.nodePorts[node] == (x.value.host, x.value.port)
  {
    hide EntryAt, ParseEntry, Find;
    i :| IsLast(b.nodePorts, c, targets, resolve, Entries(c), node, i);
    GoodEntry(c, targets, resolve, i);
  }

  /** Then no two nodes share an address. */
  lemma RoutingIsInjective(b: Built, c: Config, targets: seq<Target>, resolve: Resolver)
    requires b.Built? && IsBuilt(b, c, targets, resolve) && DistinctAdvertised(c)
    ensures forall p, q :: p in b.nodePorts && q in b.nodePorts && p != q ==> b.nodePorts[p] != b.nodePorts[q]
  {
    hide IsBuilt, EntryAt, ParseEntry, Find;
    forall p, q | p in b.nodePorts && q in b.nodePorts && p != q ensures b.nodePorts[p] != b.nodePorts[q] {
      var i := SourceOf(b, c, targets, resolve, p);
      var j := SourceOf(b, c, targets, resolve, q);
      assert i < j || j < i;
    }
  }

  /** The map as the rewriter sees it, with host names as the bytes that go on the wire. */
  function OnTheWire(m: NodePorts, bytes: string -> Bytes): RewriteMap {
    map node | node in m :: Advertised(bytes(m[node].0), m[node].1)
  }

  /** An endpoint that was substituted leads to a listener for that very node. */
  lemma SubstitutedLeadsHome(b: Built, c: Config, targets: seq<Target>, resolve: Resolver, bytes: string -> Bytes, e: Codec.Endpoint)
    requires b.Built? && IsBuilt(b, c, targets, resolve) && e.nodeId in OnTheWire(b.nodePorts, bytes)
    ensures var out := Substitute(e, OnTheWire(b.nodePorts, bytes));
            && out.nodeId == e.nodeId
            && exists i :: 0 <= i < |b.listeners| && b.listeners[i].target.nodeId == e.nodeId
                 && b.listeners[i].port == out.port
                 && (var x := ParseEntry(c.mappings[i], Fallback(c)); x.Some? && bytes(x.value.host) == out.host)
  {
    RoutingIsClosed(b, c, targets, resolve);
    hide ParseEntry, IsBuilt;
  }

  /** An endpoint left alone belongs to a node without a listener. */
  lemma UnmappedHasNoListener(b: Built, c: Config, targets: seq<Target>, resolve: Resolver, bytes: string -> Bytes, e: Codec.Endpoint)
    requires b.Built? && IsBuilt(b, c, targets, resolve)
    ensures e.nodeId !in OnTheWire(b.nodePorts, bytes) <==>
            forall i :: 0 <= i < |b.listeners| ==> b.listeners[i].nodeId != e.nodeId
  {
    RoutingIsClosed(b, c, targets, resolve);
    hide ParseEntry, IsBuilt;
  }

  /** The host of a bootstrap server: all before its last colon, or all of it when it has none. */
  lemma ServerHostSpelled(server: string)
    ensures ':' !in server ==> ServerHost(server) == server
    ensures ':' in server ==>
              |ServerHost(server)| < |server| && server[..|ServerHost(server)|] == ServerHost(server)
              && server[|ServerHost(server)|] == ':' && ':' !in server[|ServerHost(server)| + 1..]
  {
    SplitHostSpells(server);
    if SplitHost(server).Some? {
      var hp := SplitHost(server).value;
      assert server[|hp.0| + 1..] == hp.1 && server[|hp.0|] == ':';
    }
  }

  /** Pair by pair, as far as both lists go: the listener serves the entry's addresses for the first broker
      with the server's address or its host name. */
  lemma ListenersSpelled(b: Built, c: Config, targets: seq<Target>, resolve: Resolver, i: nat)
    requires b.Built? && IsBuilt(b, c, targets, resolve) && i < |b.listeners|
    ensures |b.listeners| == if |c.servers| <= |c.mappings| then |c.servers| else |c.mappings|
    ensures var fallback := if c.advertiseHost.Some? then c.advertiseHost.value else "";
            var l := b.listeners[i];
            && i < |c.mappings| && i < |c.servers|
            && ParseEntry(c.mappings[i], fallback) == Some(EntryAt(c, targets, resolve, i).mapped)
            && l == Listener(l.target.nodeId, EntryAt(c, targets, resolve, i).mapped.port,
                             EntryAt(c, targets, resolve, i).mapped.bindAddr, l.target)
            && resolve(c.servers[i]).Some?
            && exists k :: 0 <= k < |targets| && targets[k] == l.target
                 && (l.target.realAddr == resolve(c.servers[i]).value || l.target.realHost == ServerHost(c.servers[i]))
                 && forall j :: 0 <= j < k ==>
                      targets[j].realAddr != resolve(c.servers[i]).value && targets[j].realHost != ServerHost(c.servers[i])
  {
    hide ParseEntry, IsMapOf;
    assert b.listeners[i] == ListenerOf(EntryAt(c, targets, resolve, i));
    FindIsFirst(targets, resolve(c.servers[i]).value, ServerHost(c.servers[i]));
    hide Find, ServerHost;
  }
}
