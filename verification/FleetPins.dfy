/**
 TLS pins of the marbor agents across the fleet.  An agent belongs to a host, a pin
 to a node; several nodes can share a host.  Patch, enable, disable and remove hold
 one lock and are one step each.  Adding (or re-adding) a node does not take it.
 */
module FleetPins {
  import opened Options

  type Name = string
  type Host = string
  type Fingerprint = string

  datatype Scheme = Http | Https

  datatype Url = Url(hostname: Host, port: nat, tls: bool)

  datatype Node = Node(url: Url, host: Host, pin: Option<Fingerprint>)

  datatype Agent = Agent(port: nat, token: string, scheme: Scheme)

  datatype Fleet = Fleet(nodes: map<Name, Node>, agents: map<Host, Agent>)

  /** A patch of the two fields that matter here; `pin == Some(None)` clears the pin. */
  datatype NodePatch = NodePatch(url: Option<Url>, pin: Option<Option<Fingerprint>>)

  /** hostOrDefault: a declared host wins over the one the URL names. */
  function HostOrDefault(host: Host, url: Url): Host {
    if host != "" then host else url.hostname
  }

  /** The host a node ends up on when its URL changes; a declared host stays. */
  function ResultingHost(host: Host, current: Url, next: Url): Host {
    if host == HostOrDefault("", current) then HostOrDefault("", next) else host
  }

  // ---------------------------------------------------------------- the two invariants

  /** Nodes on one host never carry two different pins. */
  ghost predicate SiblingsAgree(f: Fleet) {
    forall m <- f.nodes, n <- f.nodes ::
      f.nodes[m].host == f.nodes[n].host && f.nodes[m].pin.Some? && f.nodes[n].pin.Some? ==>
        f.nodes[m].pin == f.nodes[n].pin
  }

  predicate HasHttpsAgent(f: Fleet, host: Host) {
    host in f.agents && f.agents[host].scheme.Https?
  }

  /** A pinned node's host has an enabled https agent. */
  ghost predicate PinsEnforced(f: Fleet) {
    forall n <- f.nodes :: f.nodes[n].pin.Some? ==> HasHttpsAgent(f, f.nodes[n].host)
  }

  ghost predicate Inv(f: Fleet) {
    SiblingsAgree(f) && PinsEnforced(f)
  }

  // ---------------------------------------------------------------- the operations

  /** The node a patch would leave behind. */
  function Resulting(n: Node, p: NodePatch): Node {
    var url := if p.url.Some? then p.url.value else n.url;
    Node(url, ResultingHost(n.host, n.url, url), if p.pin.Some? then p.pin.value else n.pin)
  }

  /** validateTLSPatch: the checks against the resulting state. */
  predicate TlsPatchAllowed(f: Fleet, name: Name, p: NodePatch) {
    name in f.nodes &&
    var r := Resulting(f.nodes[name], p);
    r.pin.Some? ==>
      && HasHttpsAgent(f, r.host)
      && (forall m <- f.nodes :: m != name && f.nodes[m].host == r.host && f.nodes[m].pin.Some? ==>
            f.nodes[m].pin == r.pin)
  }

  predicate UrlTaken(f: Fleet, name: Name, url: Url) {
    exists m <- f.nodes :: m != name && f.nodes[m].url == url
  }

  function Applied(f: Fleet, name: Name, p: NodePatch): Fleet
    requires name in f.nodes
  {
    f.(nodes := f.nodes[name := Resulting(f.nodes[name], p)])
  }

  function PatchNode(f: Fleet, name: Name, p: NodePatch, urlValid: bool): Fleet {
    if (p.url.None? && p.pin.None?) || !TlsPatchAllowed(f, name, p) then f
    else if p.url.Some? && (!urlValid || UrlTaken(f, name, p.url.value)) then f
    else Applied(f, name, p)
  }

  /** The scheme an enable request ends up with: the requested one, else the node's current agent's, else http. */
  function EnableScheme(f: Fleet, name: Name, scheme: Option<Scheme>): Scheme {
    if scheme.Some? then scheme.value
    else if name in f.nodes && f.nodes[name].host in f.agents then f.agents[f.nodes[name].host].scheme
    else Http
  }

  predicate HostPinned(f: Fleet, host: Host) {
    exists n <- f.nodes :: f.nodes[n].host == host && f.nodes[n].pin.Some?
  }

  /** `host` was read before the lock was taken, so the node may have moved since. */
  function EnableAgent(f: Fleet, name: Name, host: Host, port: nat, token: string, scheme: Option<Scheme>, persistOk: bool): Fleet {
    var s := EnableScheme(f, name, scheme);
    if (s.Http? && HostPinned(f, host)) || !persistOk then f
    else f.(agents := f.agents[host := Agent(port, token, s)])
  }

  function PinsCleared(nodes: map<Name, Node>, host: Host): map<Name, Node> {
    map n | n in nodes :: if nodes[n].host == host then nodes[n].(pin := None) else nodes[n]
  }

  function DisableAgent(f: Fleet, host: Host, deleteOk: bool): Fleet {
    Fleet(PinsCleared(f.nodes, host), if deleteOk then f.agents - {host} else f.agents)
  }

  function RemoveNode(f: Fleet, name: Name): Fleet {
    f.(nodes := f.nodes - {name})
  }

  /** A reload: unchanged nodes stay, the rest are removed or added afresh without a pin. */
  function SyncNodes(f: Fleet, wanted: map<Name, Url>, rejected: set<Name>): Fleet {
    f.(nodes := map n | n in wanted && !(n in rejected && !(n in f.nodes && f.nodes[n].url == wanted[n])) ::
         if n in f.nodes && f.nodes[n].url == wanted[n] then f.nodes[n]
         else Node(wanted[n], HostOrDefault("", wanted[n]), None))
  }

  /** Adding a node; under an existing name it takes the new URL and host and keeps its pin. */
  function AddNode(f: Fleet, name: Name, url: Url, host: Host): Fleet {
    if UrlTaken(f, name, url) then f
    else f.(nodes := f.nodes[name := Node(url, HostOrDefault(host, url), if name in f.nodes then f.nodes[name].pin else None)])
  }

  datatype Step =
    | Patch(name: Name, patch: NodePatch, urlValid: bool)
    | Enable(name: Name, host: Host, port: nat, token: string, scheme: Option<Scheme>, persistOk: bool)
    | Disable(host: Host, deleteOk: bool)
    | Remove(name: Name)
    | Sync(wanted: map<Name, Url>, rejected: set<Name>)
    | Insert(name: Name, url: Url, host: Host)

  function Next(f: Fleet, l: Step): Fleet {
    match l
    case Patch(name, patch, urlValid) => PatchNode(f, name, patch, urlValid)
    case Enable(name, host, port, token, scheme, persistOk) => EnableAgent(f, name, host, port, token, scheme, persistOk)
    case Disable(host, deleteOk) => DisableAgent(f, host, deleteOk)
    case Remove(name) => RemoveNode(f, name)
    case Sync(wanted, rejected) => SyncNodes(f, wanted, rejected)
    case Insert(name, url, host) => AddNode(f, name, url, host)
  }

  function Run(f: Fleet, ls: seq<Step>): Fleet
    decreases ls
  {
    if ls == [] then f else Run(Next(f, ls[0]), ls[1..])
  }

  // ---------------------------------------------------------------- the theorems

  /**
   validateTLSPatch turns away exactly the patches that would break an invariant,
   including a URL change alone that carries a pin to another host.
   */
  lemma TlsPatchAllowedIff(f: Fleet, name: Name, p: NodePatch)
    requires Inv(f) && name in f.nodes
    ensures TlsPatchAllowed(f, name, p) <==> Inv(Applied(f, name, p))
  {
    var g := Applied(f, name, p);
    var r := Resulting(f.nodes[name], p);
    if TlsPatchAllowed(f, name, p) {
      forall m <- g.nodes, n <- g.nodes
        ensures g.nodes[m].host == g.nodes[n].host && g.nodes[m].pin.Some? && g.nodes[n].pin.Some? ==>
                  g.nodes[m].pin == g.nodes[n].pin
      {
        if m != name && n != name {
          assert m in f.nodes && n in f.nodes;
        }
      }
    } else {
      assert g.nodes[name] == r;
      if HasHttpsAgent(f, r.host) {
        var m :| m in f.nodes && m != name && f.nodes[m].host == r.host && f.nodes[m].pin.Some? && f.nodes[m].pin != r.pin;
        assert g.nodes[m] == f.nodes[m];
      }
    }
  }

  /**
   Where a URL change takes a node: one that is on the host its URL names follows the URL,
   one with a host of its own stays there.
   */
  lemma MoveFollowsUrlOrStays(n: Node, p: NodePatch)
    ensures
      var r := Resulting(n, p);
      && r.url == (if p.url.Some? then p.url.value else n.url)
      && r.host == (if p.url.Some? && n.host == n.url.hostname then p.url.value.hostname else n.host)
      && r.pin == (if p.pin.Some? then p.pin.value else n.pin)
  {
  }

  /** So a node with a declared host, pinned or not, can always be moved to a URL that is free. */
  lemma DeclaredHostMovesFreely(f: Fleet, name: Name, url: Url)
    requires Inv(f) && name in f.nodes && f.nodes[name].host != f.nodes[name].url.hostname
    requires forall m <- f.nodes :: m != name ==> f.nodes[m].url != url
    ensures
      var g := PatchNode(f, name, NodePatch(Some(url), None), true);
      && g.agents == f.agents
      && g.nodes == f.nodes[name := Node(url, f.nodes[name].host, f.nodes[name].pin)]
  {
    var n := f.nodes[name];
    if n.pin.Some? {
      assert HasHttpsAgent(f, n.host);
    }
  }

  /** A URL another node has is never taken a second time, neither by a patch nor by adding a node. */
  lemma TakenUrlIsRefused(f: Fleet, name: Name, p: NodePatch, urlValid: bool, url: Url, host: Host, other: Name)
    requires other in f.nodes && other != name && f.nodes[other].url == url
    ensures p.url == Some(url) ==> PatchNode(f, name, p, urlValid) == f
    ensures AddNode(f, name, url, host) == f
  {
  }

  /** What adding a node, or adding it again, leaves: its URL, its declared host or the URL's, and the pin it had. */
  lemma AddNodeEffect(f: Fleet, name: Name, url: Url, host: Host)
    requires forall m <- f.nodes :: m != name ==> f.nodes[m].url != url
    ensures
      var g := AddNode(f, name, url, host);
      && g.agents == f.agents && g.nodes.Keys == f.nodes.Keys + {name}
      && (forall m <- f.nodes :: m != name ==> g.nodes[m] == f.nodes[m])
      && g.nodes[name] == Node(url, if host != "" then host else url.hostname, if name in f.nodes then f.nodes[name].pin else None)
  {
  }

  /** A reload keeps every node whose URL is still wanted as it is, and no pin of any other. */
  lemma SyncEffect(f: Fleet, wanted: map<Name, Url>, rejected: set<Name>, n: Name)
    ensures
      var g := SyncNodes(f, wanted, rejected);
      && g.agents == f.agents
      && (n in f.nodes && n in wanted && f.nodes[n].url == wanted[n] ==> n in g.nodes && g.nodes[n] == f.nodes[n])
      && (n !in wanted ==> n !in g.nodes)
      && (n in g.nodes && !(n in f.nodes && f.nodes[n].url == wanted[n]) ==>
            g.nodes[n] == Node(wanted[n], wanted[n].hostname, None))
  {
  }

  /** An enable is refused for the pins' sake exactly when it would leave a pinned node on an http agent. */
  lemma EnableAllowedIff(f: Fleet, name: Name, host: Host, port: nat, token: string, scheme: Option<Scheme>)
    requires Inv(f)
    ensures EnableScheme(f, name, scheme).Http? && HostPinned(f, host) <==>
            !Inv(f.(agents := f.agents[host := Agent(port, token, EnableScheme(f, name, scheme))]))
  {
  }

  lemma DisableKeepsInv(f: Fleet, host: Host, deleteOk: bool)
    requires Inv(f)
    ensures Inv(DisableAgent(f, host, deleteOk))
  {
  }

  /** What a node moved by AddNode needs; only a node that is already pinned needs anything. */
  predicate PinFits(f: Fleet, name: Name, host: Host) {
    name in f.nodes && f.nodes[name].pin.Some? ==>
      && HasHttpsAgent(f, host)
      && (forall m <- f.nodes :: m != name && f.nodes[m].host == host && f.nodes[m].pin.Some? ==>
            f.nodes[m].pin == f.nodes[name].pin)
  }

  /**
   Adding a node under an existing name carries its pin to the new host unchecked.
   It keeps the invariants exactly when the pin happens to fit there.
   */
  lemma AddNodeKeepsInvIff(f: Fleet, name: Name, url: Url, host: Host)
    requires Inv(f) && !UrlTaken(f, name, url)
    ensures Inv(AddNode(f, name, url, host)) <==> PinFits(f, name, HostOrDefault(host, url))
  {
    var h := HostOrDefault(host, url);
    var g := AddNode(f, name, url, host);
    if PinFits(f, name, h) {
      forall m <- g.nodes, n <- g.nodes
        ensures g.nodes[m].host == g.nodes[n].host && g.nodes[m].pin.Some? && g.nodes[n].pin.Some? ==>
                  g.nodes[m].pin == g.nodes[n].pin
      {
        if m != name && n != name {
          assert m in f.nodes && n in f.nodes;
        }
      }
    } else {
      assert name in g.nodes;
      if HasHttpsAgent(f, h) {
        var m :| m in f.nodes && m != name && f.nodes[m].host == h && f.nodes[m].pin.Some? && f.nodes[m].pin != f.nodes[name].pin;
        assert m in g.nodes;
      }
    }
  }

  /** A concrete fleet where it does not: a pinned node re-added with a URL on a host without an agent. */
  lemma AddNodeCanStrandAPin() returns (f: Fleet, url: Url)
    ensures Inv(f) && !Inv(AddNode(f, "gpu", url, ""))
  {
    var home := Url("a", 11434, false);
    f := Fleet(map["gpu" := Node(home, "a", Some("SHA256:00"))], map["a" := Agent(9000, "t", Https)]);
    url := Url("b", 11434, false);
    AddNodeKeepsInvIff(f, "gpu", url, "");
  }

  /** The steps for which the invariants are guaranteed: all but adding a pinned node elsewhere. */
  predicate Guarded(f: Fleet, l: Step) {
    l.Insert? ==> UrlTaken(f, l.name, l.url) || PinFits(f, l.name, HostOrDefault(l.host, l.url))
  }

  ghost predicate GuardedRun(f: Fleet, ls: seq<Step>)
    decreases ls
  {
    ls != [] ==> Guarded(f, ls[0]) && GuardedRun(Next(f, ls[0]), ls[1..])
  }

  lemma StepKeepsInv(f: Fleet, l: Step)
    requires Inv(f) && Guarded(f, l)
    ensures Inv(Next(f, l))
  {
    match l
    case Patch(name, patch, urlValid) =>
      if name in f.nodes {
        TlsPatchAllowedIff(f, name, patch);
      }
    case Enable(name, host, port, token, scheme, persistOk) => EnableAllowedIff(f, name, host, port, token, scheme);
    case Disable(host, deleteOk) => DisableKeepsInv(f, host, deleteOk);
    case Remove(name) =>
    case Sync(wanted, rejected) =>
      assert forall n <- Next(f, l).nodes :: Next(f, l).nodes[n].pin.Some? ==> n in f.nodes && Next(f, l).nodes[n] == f.nodes[n];
    case Insert(name, url, host) =>
      if !UrlTaken(f, name, url) {
        AddNodeKeepsInvIff(f, name, url, host);
      }
  }

  /** The pin an agent connection to a host must verify; `Some(pins)` lists what the nodes there carry. */
  function PinsOn(f: Fleet, host: Host): set<Fingerprint> {
    set n | n in f.nodes && f.nodes[n].host == host && f.nodes[n].pin.Some? :: f.nodes[n].pin.value
  }

  /**
   Fleet pin invariant: every run keeps both invariants, so a dial to any host never
   finds two pins to choose from, and every pin it finds is enforced by an https agent.
   */
  lemma {:induction false} RunKeepsPins(f: Fleet, ls: seq<Step>)
    requires Inv(f) && GuardedRun(f, ls)
    ensures Inv(Run(f, ls))
    ensures forall host, a, b :: a in PinsOn(Run(f, ls), host) && b in PinsOn(Run(f, ls), host) ==> a == b
    ensures forall host, a :: a in PinsOn(Run(f, ls), host) ==> HasHttpsAgent(Run(f, ls), host)
    decreases ls
  {
    if ls != [] {
      StepKeepsInv(f, ls[0]);
      RunKeepsPins(Next(f, ls[0]), ls[1..]);
    }
  }
}
