/** What goes wrong when an id is handed out while a registration under it still waits for its reply. */
module Misrouting {
  import opened Wire
  import opened Remap
  import opened Rewrite
  import opened Pool
  import opened Proxy
  import opened Registry
  import opened RegistrySteps

  /** t is what the actions, one after the other, make of s. */
  ghost predicate Leads(s: State, actions: seq<Action>, t: State)
    decreases |actions|
  {
    if actions == [] then t == s
    else Next(s, actions[0]).Some? && Leads(Next(s, actions[0]).value, actions[1..], t)
  }

  /** Client c is about to draw an id, while the reply to request n, registered for another client,
      is the next to be read on its connection k. */
  ghost predicate Contest(s: State, c: ClientId, n: nat, k: ConnId) {
    && Inv(s) && SwapSucceeds(s, c) && s.relays[c].lease.Some? && ParseRequestHeader(At(s, c).data).Some?
    && n < |s.log| && s.log[n].fate.Registered? && s.log[n].client != c && s.log[n].conn == k
    && k in s.conns && s.conns[k].reader.Resting? && s.conns[k].inbox != [] && s.conns[k].inbox[0].num == n
  }

  /** What client c registers. */
  function NewEntry(s: State, c: ClientId): Entry
    requires c in s.relays && s.relays[c].lease.Some? && At(s, c).Loaded? && ParseRequestHeader(At(s, c).data).Some?
  {
    var h := ParseRequestHeader(At(s, c).data).value;
    Entry(c, h.cid, h.apiKey, h.version, s.relays[c].lease.value)
  }

  lemma Draws(s: State, c: ClientId, n: nat, k: ConnId) returns (t: State)
    requires Contest(s, c, n, k)
    ensures Next(s, Task(c, Swap)) == Some(t)
    ensures t.conns == s.conns && t.routes == s.routes && t.owner == s.owner && |t.log| == |s.log| + 1
    ensures t.relays == s.relays[c := s.relays[c].(pc := Drew(At(s, c).data, CidOf(|s.log|), |s.log|))]
    ensures t.rewriteMap == s.rewriteMap
  {
    assert Successor(s.relays[c].pc.prev) == CidOf(|s.log|) by {
      hide ParseRequestHeader, CidOf, CounterAfter, Successor, RoutesOk, DistinctCids;
      InvBooks(s);
      SwapCounts(|s.log|);
    }
    hide Inv, ParseRequestHeader, CidOf, CounterAfter, Successor, RoutesOk, DistinctCids;
    t := DoSwap(s, c).value;
  }

  lemma Puts(s: State, c: ClientId, u: State, cidU: Int32, num: nat) returns (t: State)
    requires c in s.relays && s.relays[c].lease.Some? && At(s, c).Loaded? && ParseRequestHeader(At(s, c).data).Some?
    requires u.relays == s.relays[c := s.relays[c].(pc := Drew(At(s, c).data, cidU, num))]
    ensures Next(u, Task(c, Put)) == Some(t)
    ensures t.conns == u.conns && t.routes == u.routes[cidU := NewEntry(s, c)]
    ensures t.relays == u.relays[c := t.relays[c]] && c in t.relays
    ensures t.relays[c].resp == s.relays[c].resp && t.relays[c].respOpen == s.relays[c].respOpen
    ensures t.rewriteMap == u.rewriteMap
  {
    hide ParseRequestHeader;
    t := DoPut(u, c).value;
  }

  /** The reply read from connection k: the broker's, under request n's id. */
  lemma NextReply(s: State, c: ClientId, n: nat, k: ConnId)
    requires Contest(s, c, n, k)
    ensures s.log[n].reply == Some(s.conns[k].inbox[0].frame)
    ensures ParseResponseCid(s.conns[k].inbox[0].frame) == Some(CidOf(n))
    ensures CidOf(n) in s.routes && s.routes[CidOf(n)] == EntryOf(s.log[n])
  {
    InvConn(s, k);
    InvBooks(s);
    assert ItemOk(s.log, k, s.conns[k].inbox[0], Received);
    hide Inv, CidOf, ParseResponseCid, DistinctCids, CounterAfter;
  }

  lemma Fetches(s: State, k: ConnId, cid: Int32) returns (t: State)
    requires k in s.conns && s.conns[k].reader.Resting? && s.conns[k].inbox != [] && cid in s.routes
    requires ParseResponseCid(s.conns[k].inbox[0].frame) == Some(cid)
    ensures Next(s, Link(k, Fetch)) == Some(t)
    ensures var x := s.conns[k].inbox[0];
            t.conns == s.conns[k := s.conns[k].(inbox := s.conns[k].inbox[1..], reader := TookMap(x.num, s.routes[cid], x.frame))]
    ensures t.routes == s.routes - {cid} && t.relays == s.relays && t.rewriteMap == s.rewriteMap
  {
    hide ParseResponseCid, OwnerOf, Mark, Move;
    t := DoFetch(s, k).value;
  }

  lemma LeadsThrice(s: State, a: Action, s1: State, b: Action, s2: State, d: Action, t: State)
    requires Next(s, a) == Some(s1) && Next(s1, b) == Some(s2) && Next(s2, d) == Some(t)
    ensures Leads(s, [a, b, d], t)
  {
    hide Next;
    assert [d][1..] == [] && [b, d][1..] == [d] && [a, b, d][1..] == [b, d];
    assert Leads(t, [], t);
    assert Leads(s2, [d], t);
    assert Leads(s1, [b, d], t);
  }

  /** The new registration and the reading of the reply, one after the other: the reply finds the entry of
      its own request exactly if the id drawn is not that request's. */
  lemma ReplyFindsItsOwnExactly(s: State, c: ClientId, n: nat, k: ConnId) returns (t: State)
    requires Contest(s, c, n, k)
    ensures Leads(s, [Task(c, Swap), Task(c, Put), Link(k, Fetch)], t)
    ensures k in t.conns && t.conns[k].reader.TookMap? && t.conns[k].reader.num == n
    ensures t.conns[k].reader.data == s.conns[k].inbox[0].frame
    ensures t.conns[k].reader.entry == if CidOf(|s.log|) == CidOf(n) then NewEntry(s, c) else EntryOf(s.log[n])
    ensures t.conns[k].reader.entry.client == s.log[n].client <==> CidOf(|s.log|) != CidOf(n)
    ensures CidOf(n) !in t.routes && t.rewriteMap == s.rewriteMap
    ensures c in t.relays && t.relays[c].resp == s.relays[c].resp && t.relays[c].respOpen == s.relays[c].respOpen
  {
    NextReply(s, c, n, k);
    var s1 := Draws(s, c, n, k);
    hide Inv, ParseRequestHeader, ParseResponseCid, CidOf, Next, CounterAfter;
    var s2 := Puts(s, c, s1, CidOf(|s.log|), |s.log|);
    t := Fetches(s2, k, CidOf(n));
    hide Contest, Leads;
    LeadsThrice(s, Task(c, Swap), s1, Task(c, Put), s2, Link(k, Fetch), t);
  }

  lemma Hands(s: State, k: ConnId) returns (t: State)
    requires k in s.conns && s.conns[k].reader.TookMap? && |s.conns[k].reader.data| >= 4
    requires var c := s.conns[k].reader.entry.client;
             c in s.relays && s.relays[c].respOpen && |s.relays[c].resp| < RESPONSE_QUEUE
    ensures Leads(s, [Link(k, ReadTallyMap), Link(k, ReadTallyRequest), Link(k, Deliver)], t)
    ensures var d := s.conns[k].reader;
            var c := d.entry.client;
            c in t.relays && t.routes == s.routes
            && t.relays[c].resp == s.relays[c].resp
                 + [Delivery(d.num, RouteResponse(d.data, d.entry.cidD, d.entry.apiKey, d.entry.version, s.rewriteMap))]
  {
    hide RouteResponse, Move;
    var s1 := DoReadTallyMap(s, k).value;
    var s2 := DoReadTallyRequest(s1, k).value;
    t := DoDeliver(s2, k).value;
    assert Next(s, Link(k, ReadTallyMap)) == Some(s1) && Next(s1, Link(k, ReadTallyRequest)) == Some(s2)
        && Next(s2, Link(k, Deliver)) == Some(t);
    hide Next, Leads;
    LeadsThrice(s, Link(k, ReadTallyMap), s1, Link(k, ReadTallyRequest), s2, Link(k, Deliver), t);
  }

  /** An id handed out while request n waits for its reply under it: the reply goes to the wrong client,
      dressed as the answer to that client's request, and n's own client can no longer get it. */
  lemma StaleIdMisroutes(s: State, c: ClientId, n: nat, k: ConnId) returns (mid: State, t: State)
    requires Contest(s, c, n, k) && CidOf(|s.log|) == CidOf(n)
    requires s.relays[c].respOpen && |s.relays[c].resp| < RESPONSE_QUEUE
    ensures Leads(s, [Task(c, Swap), Task(c, Put), Link(k, Fetch)], mid)
    ensures Leads(mid, [Link(k, ReadTallyMap), Link(k, ReadTallyRequest), Link(k, Deliver)], t)
    ensures s.log[n].client != c && c in t.relays && CidOf(n) !in t.routes
    ensures var h := ParseRequestHeader(At(s, c).data).value;
            var reply := s.conns[k].inbox[0].frame;
            && |reply| >= 4 && s.log[n].reply == Some(reply)
            && t.relays[c].resp == s.relays[c].resp
                 + [Delivery(n, RouteResponse(reply, h.cid, h.apiKey, h.version, s.rewriteMap))]
  {
    NextReply(s, c, n, k);
    mid := ReplyFindsItsOwnExactly(s, c, n, k);
    hide Inv, CidOf, CounterAfter, Leads, ParseRequestHeader, RouteResponse, Next;
    t := Hands(mid, k);
  }
}
