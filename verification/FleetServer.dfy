/** The node and agent handlers that change pins, and the pin a dial verifies. */
module FleetServer {
  import opened Options
  import opened FleetPins

  datatype PatchError = Accepted | NodeNotFound | NoHttpsAgent | SiblingPinnedDifferently | BadUrl | UrlInUse

  /** A listing that names every node, and nothing else. */
  predicate Lists(order: seq<Name>, nodes: map<Name, Node>) {
    (forall n <- order :: n in nodes) && (forall n <- nodes :: n in order)
  }

  class Router {
    var nodes: map<Name, Node>
    var agents: map<Host, Agent>

    function View(): Fleet
      reads this
    {
      Fleet(nodes, agents)
    }

    /** Checks a patch against the state it would produce, before anything is changed. */
    method ValidateTLSPatch(name: Name, patch: NodePatch, order: seq<Name>) returns (e: PatchError)
      requires Lists(order, nodes)
      ensures e.Accepted? <==> TlsPatchAllowed(View(), name, patch)
      ensures e.NodeNotFound? <==> name !in nodes
      ensures name in nodes ==>
                var n := nodes[name];
                var host := if patch.url.Some? && n.host == n.url.hostname then patch.url.value.hostname else n.host;
                var pin := if patch.pin.Some? then patch.pin.value else n.pin;
                && (e.NoHttpsAgent? <==> pin.Some? && !(host in agents && agents[host].scheme.Https?))
                && (e.SiblingPinnedDifferently? <==>
                      && pin.Some? && host in agents && agents[host].scheme.Https?
                      && exists m <- nodes :: m != name && nodes[m].host == host && nodes[m].pin.Some? && nodes[m].pin != pin)
    {
      var target: Option<Node> := None;
      for i := 0 to |order|
        invariant target == if name in order[..i] then Some(nodes[name]) else None
      {
        if order[i] == name {
          target := Some(nodes[name]);
        }
      }
      assert order[..|order|] == order;
      if target.None? {
        return NodeNotFound;
      }
      var n := target.value;
      var resultingUrl := n.url;
      if patch.url.Some? {
        resultingUrl := patch.url.value;
      }
      var resultingPin := n.pin;
      if patch.pin.Some? {
        resultingPin := patch.pin.value;
      }
      var resultingHost := ResultingHost(n.host, n.url, resultingUrl);
      if resultingPin.Some? {
        if resultingHost !in agents || !agents[resultingHost].scheme.Https? {
          return NoHttpsAgent;
        }
        for i := 0 to |order|
          invariant forall m <- order[..i] ::
                      m != name && nodes[m].host == resultingHost && nodes[m].pin.Some? ==> nodes[m].pin == resultingPin
        {
          if order[i] != name {
            var sibling := nodes[order[i]];
            if sibling.host == resultingHost && sibling.pin.Some? && sibling.pin != resultingPin {
              return SiblingPinnedDifferently;
            }
          }
        }
        assert order[..|order|] == order;
      }
      e := Accepted;
    }

    /** The whole transaction under the patch lock: validate, move, then pin. */
    method HandlePatchNode(name: Name, patch: NodePatch, order: seq<Name>, urlValid: bool) returns (e: PatchError)
      requires Lists(order, nodes)
      modifies `nodes
      ensures View() == PatchNode(old(View()), name, patch, urlValid)
      ensures !e.Accepted? ==> View() == old(View())
      ensures Inv(old(View())) ==> Inv(View())
      ensures e.Accepted? && (patch.url.Some? || patch.pin.Some?) ==>
                && name in old(nodes) && nodes.Keys == old(nodes).Keys
                && (forall m <- nodes :: m != name ==> nodes[m] == old(nodes)[m])
      ensures e.Accepted? && name in old(nodes) ==>
                var before, after := old(nodes)[name], nodes[name];
                && after.url == (if patch.url.Some? then patch.url.value else before.url)
                && after.pin == (if patch.pin.Some? then patch.pin.value else before.pin)
                && (before.host != before.url.hostname ==> after.host == before.host)
                && (before.host == before.url.hostname ==> after.host == after.url.hostname)
      ensures e.UrlInUse? ==> patch.url.Some? && exists m <- nodes :: m != name && nodes[m].url == patch.url.value
      ensures e.BadUrl? ==> patch.url.Some? && !urlValid
      ensures e.Accepted? && patch.url.Some? ==>
                urlValid && forall m <- old(nodes) :: m != name ==> old(nodes)[m].url != patch.url.value
    {
      if Inv(View()) && name in nodes {
        TlsPatchAllowedIff(View(), name, patch);
      }
      if patch.url.None? && patch.pin.None? {
        return Accepted;
      }
      e := ValidateTLSPatch(name, patch, order);
      if !e.Accepted? {
        return;
      }
      if patch.url.Some? {
        if !urlValid {
          return BadUrl;
        }
        if UrlTaken(View(), name, patch.url.value) {
          return UrlInUse;
        }
        var n := nodes[name];
        nodes := nodes[name := n.(url := patch.url.value, host := ResultingHost(n.host, n.url, patch.url.value))];
      }
      if patch.pin.Some? {
        nodes := nodes[name := nodes[name].(pin := patch.pin.value)];
      }
      assert nodes == old(nodes)[name := Resulting(old(nodes)[name], patch)];
    }

    /** Enables or reconfigures the agent of a host; false when a pin there forbids http, or the write failed. */
    method HandleEnableAgent(name: Name, host: Host, port: nat, token: string, scheme: Option<Scheme>,
                             persistOk: bool, order: seq<Name>) returns (ok: bool)
      requires Lists(order, nodes)
      modifies `agents
      ensures View() == EnableAgent(old(View()), name, host, port, token, scheme, persistOk)
      ensures
        var known := name in nodes && nodes[name].host in old(agents);
        var s := if scheme.Some? then scheme.value else if known then old(agents)[nodes[name].host].scheme else Http;
        && (ok <==> persistOk && !(s.Http? && exists n <- nodes :: nodes[n].host == host && nodes[n].pin.Some?))
        && agents == (if ok then old(agents)[host := Agent(port, token, s)] else old(agents))
      ensures Inv(old(View())) ==> Inv(View())
    {
      if Inv(View()) {
        EnableAllowedIff(View(), name, host, port, token, scheme);
      }
      var s := Http;
      if name in nodes && nodes[name].host in agents {
        s := agents[nodes[name].host].scheme;
      }
      if scheme.Some? {
        s := scheme.value;
      }
      if s.Http? {
        for i := 0 to |order|
          invariant forall n <- order[..i] :: !(nodes[n].host == host && nodes[n].pin.Some?)
        {
          if nodes[order[i]].host == host && nodes[order[i]].pin.Some? {
            return false;
          }
        }
        assert order[..|order|] == order;
      }
      if !persistOk {
        return false;
      }
      agents := agents[host := Agent(port, token, s)];
      ok := true;
    }

    /** Clears every pin on the host, then forgets its agent. */
    method HandleDisableAgent(host: Host, order: seq<Name>, deleteOk: bool)
      requires Lists(order, nodes)
      modifies `nodes, `agents
      ensures View() == DisableAgent(old(View()), host, deleteOk)
      ensures nodes.Keys == old(nodes).Keys
      ensures forall n <- nodes :: nodes[n] ==
                (if old(nodes)[n].host == host then Node(old(nodes)[n].url, host, None) else old(nodes)[n])
      ensures agents == if deleteOk then old(agents) - {host} else old(agents)
      ensures Inv(old(View())) ==> Inv(View())
    {
      if Inv(View()) {
        DisableKeepsInv(View(), host, deleteOk);
      }
      nodes := ClearPins(nodes, host, order);
      if deleteOk {
        agents := agents - {host};
      }
    }

    /**
     The pin that applies to a dial address.  While the invariants hold it is never
     ambiguous, and it is the pin of every pinned node on that host.
     */
    method PinnedFingerprintFor(host: Host, port: nat, order: seq<Name>)
        returns (pin: Option<Fingerprint>, matched: bool, ambiguous: bool)
      requires Lists(order, nodes)
      ensures matched <==> host in agents && agents[host].port == port
      ensures Inv(View()) ==> !ambiguous
      ensures Inv(View()) && matched ==>
                if pin.Some? then PinsOn(View(), host) == {pin.value} && agents[host].scheme.Https? else PinsOn(View(), host) == {}
    {
      if host !in agents || agents[host].port != port {
        return None, false, false;
      }
      var seen: set<Fingerprint> := {};
      for i := 0 to |order|
        invariant seen == set n | n in order[..i] && nodes[n].host == host && nodes[n].pin.Some? :: nodes[n].pin.value
      {
        assert order[..i + 1] == order[..i] + [order[i]];
        var n := nodes[order[i]];
        if n.host == host && n.pin.Some? {
          seen := seen + {n.pin.value};
        }
      }
      assert order[..|order|] == order;
      assert seen == PinsOn(View(), host);
      if |seen| > 1 {
        if Inv(View()) {
          AgreeingPinsAreOne(View(), host);
        }
        return None, true, true;
      }
      if seen != {} {
        var fp :| fp in seen;
        OneElement(seen, fp);
        return Some(fp), true, false;
      }
      pin, matched, ambiguous := None, true, false;
    }
  }

  /** Clears the pin of each node on the host. */
  method ClearPins(nodes: map<Name, Node>, host: Host, order: seq<Name>) returns (cleared: map<Name, Node>)
    requires Lists(order, nodes)
    ensures cleared == PinsCleared(nodes, host)
  {
    cleared := nodes;
    for i := 0 to |order|
      invariant cleared.Keys == nodes.Keys
      invariant forall n <- nodes ::
                  cleared[n] == if n in order[..i] && nodes[n].host == host then nodes[n].(pin := None) else nodes[n]
    {
      assert order[..i + 1] == order[..i] + [order[i]];
      var n := cleared[order[i]];
      if n.host == host && n.pin.Some? {
        cleared := cleared[order[i] := n.(pin := None)];
      }
    }
    assert order[..|order|] == order;
  }

  lemma OneElement(s: set<Fingerprint>, x: Fingerprint)
    requires x in s && |s| <= 1
    ensures s == {x}
  {
    assert |s - {x}| == 0;
  }

  lemma AgreeingPinsAreOne(f: Fleet, host: Host)
    requires SiblingsAgree(f)
    ensures |PinsOn(f, host)| <= 1
  {
    var s := PinsOn(f, host);
    if s != {} {
      var x :| x in s;
      assert s == {x};
    }
  }
}
