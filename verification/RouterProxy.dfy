/** The router the command line builds from the real one: the same tree, whose procedures call the server. */
module RouterProxy {
  import opened Wrappers

  type Path = seq<string>

  // A procedure is known by a number here. `voidInput` tells that its schema takes no input.
  datatype Node = Procedure(id: nat, voidInput: bool) | Router(entries: seq<Entry>) | Other
  datatype Entry = Entry(key: string, value: Node)

  datatype Proxy = Caller(path: Path, voidInput: bool) | Routes(entries: seq<ProxyEntry>)
  datatype ProxyEntry = ProxyEntry(key: string, proxy: Proxy)

  datatype Input = Undefined | EmptyObject | Given(json: string)

  // ---------- following a path ----------

  function Find(entries: seq<Entry>, key: string): Option<Node> {
    if entries == [] then None else if entries[0].key == key then Some(entries[0].value) else Find(entries[1..], key)
  }

  function FindProxy(entries: seq<ProxyEntry>, key: string): Option<Proxy> {
    if entries == [] then None else if entries[0].key == key then Some(entries[0].proxy) else FindProxy(entries[1..], key)
  }

  function At(node: Node, p: Path): Option<Node>
    decreases |p|
  {
    if p == [] then Some(node)
    else if !node.Router? || Find(node.entries, p[0]).None? then None
    else At(Find(node.entries, p[0]).value, p[1..])
  }

  function ProxyAt(proxy: Proxy, p: Path): Option<Proxy>
    decreases |p|
  {
    if p == [] then Some(proxy)
    else if !proxy.Routes? || FindProxy(proxy.entries, p[0]).None? then None
    else ProxyAt(FindProxy(proxy.entries, p[0]).value, p[1..])
  }

  // ---------- the code ----------

  function Proxied(node: Node, path: Path): Option<Proxy>
    decreases node, 1
  {
    match node
    case Procedure(_, voidInput) => Some(Caller(path, voidInput))
    case Router(entries) => Some(Routes(ProxiedAll(entries, path)))
    case Other => None
  }

  function ProxiedAll(entries: seq<Entry>, path: Path): seq<ProxyEntry>
    decreases entries, 0
  {
    if entries == [] then [] else ProxiedOne(entries[0], path) + ProxiedAll(entries[1..], path)
  }

  function ProxiedOne(entry: Entry, path: Path): seq<ProxyEntry>
    decreases entry, 2
  {
    var proxy := Proxied(entry.value, path + [entry.key]);
    if proxy.Some? then [ProxyEntry(entry.key, proxy.value)] else []
  }

  lemma ProxiedFrom(entries: seq<Entry>, i: nat, path: Path)
    requires i < |entries|
    ensures ProxiedAll(entries[i..], path) == ProxiedOne(entries[i], path) + ProxiedAll(entries[i + 1..], path)
  {
    assert entries[i..][0] == entries[i] && entries[i..][1..] == entries[i + 1..];
  }

  method CreateRouterProxy(entries: seq<Entry>, path: Path) returns (result: seq<ProxyEntry>)
    ensures result == ProxiedAll(entries, path)
    decreases entries
  {
    result := [];
    for i := 0 to |entries|
      invariant result + ProxiedAll(entries[i..], path) == ProxiedAll(entries, path)
    {
      ProxiedFrom(entries, i, path);
      var newPath := path + [entries[i].key];
      var more: seq<ProxyEntry> := [];
      match entries[i].value {
        case Procedure(_, voidInput) => more := [ProxyEntry(entries[i].key, Caller(newPath, voidInput))];
        case Router(inner) =>
          var routes := CreateRouterProxy(inner, newPath);
          more := [ProxyEntry(entries[i].key, Routes(routes))];
        case Other =>
      }
      assert more == ProxiedOne(entries[i], path);
      assert result + (more + ProxiedAll(entries[i + 1..], path)) == (result + more) + ProxiedAll(entries[i + 1..], path);
      result := result + more;
    }
    assert entries[|entries|..] == [];
  }

  // What a call of a proxy sends where: the client is followed along the proxy's path, and the empty object that the
  // command line sends for no input becomes no input.
  function Forwarded(server: Node, proxy: Proxy, input: Input): Option<(Node, Input)>
    requires proxy.Caller?
  {
    var target := At(server, proxy.path);
    if target.None? then None
    else Some((target.value, if proxy.voidInput && input == EmptyObject then Undefined else input))
  }

  // ---------- the proxy is the router, procedure by procedure ----------

  lemma {:induction false} FindProxied(entries: seq<Entry>, path: Path, key: string)
    requires forall i, j :: 0 <= i < j < |entries| ==> entries[i].key != entries[j].key
    ensures FindProxy(ProxiedAll(entries, path), key) ==
            if Find(entries, key).None? then None else Proxied(Find(entries, key).value, path + [key])
    decreases |entries|
  {
    if entries != [] {
      var rest := entries[1..];
      FindProxied(rest, path, key);
      if entries[0].key == key {
        FindNothing(rest, key);
      }
      var proxy := Proxied(entries[0].value, path + [entries[0].key]);
      assert ProxiedAll(entries, path) == ProxiedOne(entries[0], path) + ProxiedAll(rest, path);
      assert proxy.Some? ==> ProxiedAll(entries, path)[1..] == ProxiedAll(rest, path);
      assert proxy.None? ==> ProxiedAll(entries, path) == ProxiedAll(rest, path);
    }
  }

  lemma {:induction false} FindNothing(entries: seq<Entry>, key: string)
    requires forall i :: 0 <= i < |entries| ==> entries[i].key != key
    ensures Find(entries, key).None?
    decreases |entries|
  {
    if entries != [] { FindNothing(entries[1..], key); }
  }

  // An object has every key once.
  predicate Keyed(node: Node) {
    node.Router? ==>
      && (forall i, j :: 0 <= i < j < |node.entries| ==> node.entries[i].key != node.entries[j].key)
      && AllKeyed(node.entries)
  }

  predicate AllKeyed(entries: seq<Entry>) {
    entries == [] || (Keyed(entries[0].value) && AllKeyed(entries[1..]))
  }

  lemma {:induction false} FoundIsKeyed(entries: seq<Entry>, key: string)
    requires AllKeyed(entries) && Find(entries, key).Some?
    ensures Keyed(Find(entries, key).value)
    decreases |entries|
  {
    if entries[0].key != key { FoundIsKeyed(entries[1..], key); }
  }

  // Below a node the proxy has at every path the proxy of what the router has there, built for the whole path.
  lemma {:induction false} ProxyAtIs(node: Node, path: Path, p: Path)
    requires Keyed(node) && Proxied(node, path).Some?
    ensures ProxyAt(Proxied(node, path).value, p) ==
            if At(node, p).None? then None else Proxied(At(node, p).value, path + p)
    decreases |p|
  {
    if p == [] {
      assert path + p == path;
    } else if node.Router? {
      FindProxied(node.entries, path, p[0]);
      var next := Find(node.entries, p[0]);
      if next.Some? {
        FoundIsKeyed(node.entries, p[0]);
        assert path + [p[0]] + p[1..] == path + p;
        if Proxied(next.value, path + [p[0]]).Some? {
          ProxyAtIs(next.value, path + [p[0]], p[1..]);
        } else {
          assert next.value.Other?;
          if p[1..] == [] { assert At(node, p) == Some(next.value); }
        }
      }
    }
  }

  // The proxy has something at a path if and only if the router has a router or a procedure there; it has a procedure
  // if and only if the router does, and calling it calls the router's procedure
  // at that very path, with the input given, or with none for the empty object of a procedure that takes none.
  lemma ProxyMirrorsRouter(router: Node, p: Path, input: Input)
    requires Keyed(router) && router.Router?
    ensures var proxy := ProxyAt(Routes(ProxiedAll(router.entries, [])), p); var there := At(router, p);
      && (proxy.Some? <==> there.Some? && !there.value.Other?)
      && (proxy.Some? && proxy.value.Caller? <==> there.Some? && there.value.Procedure?)
      && (there.Some? && there.value.Procedure? ==>
            Forwarded(router, proxy.value, input) ==
            Some((there.value, if there.value.voidInput && input == EmptyObject then Undefined else input)))
  {
    ProxyAtIs(router, [], p);
    assert [] + p == p;
  }
}
