/** A cache Group (a namespace with its loader, its local store and an
    optional peer picker) and the process-wide registry of groups by name. */
module GroupCache {
  import opened Wire
  import opened Bttcp

  /** The Getter a group is created with: loads the value of a key. */
  type Loader = Bytes -> Result<Bytes>

  const KeyRequired: Error := Error(Text("key is required"))

  /** The calls Get makes on its collaborators, in order: the picker, the
      remote peer and the loader. */
  datatype Call = Picked(key: Bytes) | Fetched(peer: Bytes, group: Bytes, key: Bytes) | Loaded(key: Bytes)

  /** What one Get (or load) does: its result, the store afterwards and the
      calls it made. */
  datatype Step = Step(result: Result<Bytes>, store: map<Bytes, Bytes>, calls: seq<Call>)

  class Group {
    const name: Bytes
    const getter: Loader
    var mainCache: map<Bytes, Bytes>
    var peers: BttcpPicker?

    constructor (name: Bytes, getter: Loader)
      ensures this.name == name && this.getter == getter
      ensures mainCache == map[] && peers == null
    {
      this.name := name;
      this.getter := getter;
      mainCache := map[];
      peers := null;
    }

    /** A registered picker has been given its peers and sits on a ring that
        only names those peers. */
    ghost predicate Ready(env: Env)
      reads this`peers, peers
    {
      peers != null ==> peers.Valid() && peers.ring.Some? && OwnersAreNodes(env.owner)
    }

    /** The peer load asks for a key, if any. */
    function Remote(key: Bytes, env: Env): Option<Getter>
      reads this`peers, peers
      requires Ready(env)
    {
      if peers == null then None else peers.PickPeer(key, env.owner)
    }

    /** getFromPeer: the remote peer's answer for this group's key. */
    function GetFromPeer(peer: Getter, key: Bytes, env: Env): (r: Result<Bytes>)
      // The peer is asked for this group's key, and a success is its 200 reply.
      ensures r.Ok? ==>
        && env.codec.marshalRequest(Request(name, key)).Ok?
        && var reply := env.send(peer.baseURL, env.codec.marshalRequest(Request(name, key)).value);
        && reply.Ok? && reply.value.Some?
        && env.codec.unmarshalResponse(reply.value.value) == Ok(Response(r.value, 200))
      // A failure to encode the request is returned as it is.
      ensures env.codec.marshalRequest(Request(name, key)).Err? ==> r == Err(env.codec.marshalRequest(Request(name, key)).error)
      // A 200 reply's value is returned.
      ensures env.codec.marshalRequest(Request(name, key)).Ok? ==>
        var reply := env.send(peer.baseURL, env.codec.marshalRequest(Request(name, key)).value);
        reply.Ok? && reply.value.Some? && env.codec.unmarshalResponse(reply.value.value).Ok?
        && env.codec.unmarshalResponse(reply.value.value).value.code == 200 ==>
          r == Ok(env.codec.unmarshalResponse(reply.value.value).value.value)
      // Every error of the peer's Get is passed on unchanged.
      ensures r.Err? ==> r == FetchFromPeer(env.codec, env.send, peer, name, key)
    {
      FetchFromPeer(env.codec, env.send, peer, name, key)
    }

    /** The key is served by a remote peer: one is picked and it answers. */
    ghost predicate RemoteHit(key: Bytes, env: Env)
      reads this`peers, peers
      requires Ready(env)
    {
      Remote(key, env).Some? && GetFromPeer(Remote(key, env).value, key, env).Ok?
    }

    /** getLocally: call the loader once and keep a copy of what it returns. */
    function LocalOutcome(store: map<Bytes, Bytes>, key: Bytes): (s: Step)
      // One loader call; its outcome is the result and only a success is kept.
      ensures s.calls == [Loaded(key)] && s.result == getter(key)
      ensures s.result.Ok? ==> s.store == store[key := s.result.value]
      ensures s.result.Err? ==> s.store == store
    {
      match getter(key)
      case Err(e) => Step(Err(e), store, [Loaded(key)])
      case Ok(v) => Step(Ok(v), store[key := v], [Loaded(key)])
    }

    /** load: a remote peer's value when one is picked and answers, and
        otherwise the loader's outcome, cached locally on success. */
    function LoadOutcome(store: map<Bytes, Bytes>, key: Bytes, env: Env): (s: Step)
      reads this`peers, peers
      requires Ready(env)
      // The picker is asked first and only once when there is one, and never otherwise.
      ensures peers != null ==> s.calls != [] && s.calls[0] == Picked(key) && Picked(key) !in s.calls[1..]
      ensures peers == null ==> Picked(key) !in s.calls
    {
      if peers == null then LocalOutcome(store, key)
      else
        match peers.PickPeer(key, env.owner)
        case None =>
          var local := LocalOutcome(store, key);
          local.(calls := [Picked(key)] + local.calls)
        case Some(peer) =>
          match GetFromPeer(peer, key, env)
          case Ok(v) => Step(Ok(v), store, [Picked(key), Fetched(peer.baseURL, name, key)])
          case Err(_) =>
            var local := LocalOutcome(store, key);
            local.(calls := [Picked(key), Fetched(peer.baseURL, name, key)] + local.calls)
    }

    /** Get: reject the empty key, serve a local hit, load otherwise. */
    function GetOutcome(store: map<Bytes, Bytes>, key: Bytes, env: Env): (s: Step)
      reads this`peers, peers
      requires Ready(env)
      // The empty key is rejected before the store, the picker or the loader is touched.
      ensures key == [] ==> s == Step(Err(KeyRequired), store, [])
      // A hit returns the stored bytes and calls nothing.
      ensures key != [] && key in store ==> s == Step(Ok(store[key]), store, [])
      ensures key != [] && key !in store ==> s == LoadOutcome(store, key, env)
      // The store changes only by gaining the missed key with the returned value.
      ensures s.store == store || (key !in store && s.result.Ok? && s.store == store[key := s.result.value])
    {
      if key == [] then Step(Err(KeyRequired), store, [])
      else if key in store then Step(Ok(store[key]), store, [])
      else
        LoadOnlyAddsKey(this, store, key, env);
        LoadOutcome(store, key, env)
    }

    method Get(key: Bytes, env: Env) returns (r: Result<Bytes>, calls: seq<Call>)
      requires Ready(env)
      modifies this`mainCache
      ensures var s := GetOutcome(old(mainCache), key, env);
              r == s.result && calls == s.calls && mainCache == s.store
    {
      if key == [] {
        return Err(KeyRequired), [];
      }
      if key in mainCache {
        return Ok(mainCache[key]), [];
      }
      r, calls := Load(key, env);
    }

    method Load(key: Bytes, env: Env) returns (value: Result<Bytes>, calls: seq<Call>)
      requires Ready(env)
      modifies this`mainCache
      ensures var s := LoadOutcome(old(mainCache), key, env);
              value == s.result && calls == s.calls && mainCache == s.store
    {
      if peers == null {
        value, calls := GetLocally(key);
        return;
      }
      var peer := peers.PickPeer(key, env.owner);
      if peer.None? {
        var local;
        value, local := GetLocally(key);
        calls := [Picked(key)] + local;
        return;
      }
      value := GetFromPeer(peer.value, key, env);
      if value.Ok? {
        calls := [Picked(key), Fetched(peer.value.baseURL, name, key)];
        return;
      }
      var local;
      value, local := GetLocally(key);
      calls := [Picked(key), Fetched(peer.value.baseURL, name, key)] + local;
    }

    method GetLocally(key: Bytes) returns (value: Result<Bytes>, calls: seq<Call>)
      modifies this`mainCache
      ensures var s := LocalOutcome(old(mainCache), key);
              value == s.result && calls == s.calls && mainCache == s.store
    {
      calls := [Loaded(key)];
      value := getter(key);
      if value.Ok? {
        mainCache := mainCache[key := value.value];
      }
    }

    /** Sets the picker once; a second call panics (true) and the first
        picker stays. */
    method RegisterPeers(picker: BttcpPicker?) returns (panicked: bool)
      modifies this`peers
      ensures panicked == (old(peers) != null)
      ensures peers == if panicked then old(peers) else picker
    {
      if peers != null {
        return true;
      }
      peers := picker;
      return false;
    }

    /** The local store forgets entries of its own accord (capacity
        eviction or expiry). */
    method Evict(keys: set<Bytes>)
      modifies this`mainCache
      ensures mainCache == old(mainCache) - keys
    {
      mainCache := mainCache - keys;
    }
  }

  /** A remote value is returned as it is, not cached, and the loader is
      not called; the picked peer is asked once. */
  lemma LoadServedRemotely(g: Group, store: map<Bytes, Bytes>, key: Bytes, env: Env)
    requires g.Ready(env)
    requires g.RemoteHit(key, env)
    ensures var s := g.LoadOutcome(store, key, env);
            && s.result == g.GetFromPeer(g.Remote(key, env).value, key, env)
            && s.store == store
            && s.calls == [Picked(key), Fetched(g.Remote(key, env).value.baseURL, g.name, key)]
  {
  }

  /** With no remote value (no picker, the key owned by this peer or by
      nobody, or the peer failing) the loader is called exactly once, last;
      its outcome is the result, so a remote error is never surfaced; only
      its success is cached. */
  lemma LoadFallsBack(g: Group, store: map<Bytes, Bytes>, key: Bytes, env: Env)
    requires g.Ready(env)
    requires !g.RemoteHit(key, env)
    ensures var s := g.LoadOutcome(store, key, env);
            && s.result == g.getter(key)
            && s.calls != [] && s.calls[|s.calls| - 1] == Loaded(key)
            && Loaded(key) !in s.calls[..|s.calls| - 1]
            && s.store == if g.getter(key).Ok? then store[key := g.getter(key).value] else store
  {
    var s := g.LoadOutcome(store, key, env);
    assert s.calls[..|s.calls| - 1] == if g.peers == null then []
      else if g.Remote(key, env).None? then [Picked(key)]
      else [Picked(key), Fetched(g.Remote(key, env).value.baseURL, g.name, key)];
  }

  /** load changes the store only by adding the key with the value it returns. */
  lemma LoadOnlyAddsKey(g: Group, store: map<Bytes, Bytes>, key: Bytes, env: Env)
    requires g.Ready(env)
    ensures var s := g.LoadOutcome(store, key, env);
            s.store == store || (s.result.Ok? && s.store == store[key := s.result.value])
  {
    if g.RemoteHit(key, env) {
      LoadServedRemotely(g, store, key, env);
    } else {
      LoadFallsBack(g, store, key, env);
    }
  }

  /** The package-level map of groups by name. */
  class Registry {
    var groups: map<Bytes, Group>

    constructor ()
      ensures groups == map[]
    {
      groups := map[];
    }

    /** The group registered under `name`, or null. */
    function GetGroup(name: Bytes): (g: Group?)
      reads this
      ensures g == null <==> name !in groups
      ensures g != null ==> g == groups[name]
    {
      if name in groups then groups[name] else null
    }

    /** Creates and registers a group, replacing any group of that name; a
        missing loader panics, shown here as a null result with the registry
        unchanged. The store's capacity and entry lifetime are not modelled. */
    method NewGroup(name: Bytes, cacheBytes: int, keySurvivalTime: int, getter: Option<Loader>)
      returns (g: Group?)
      modifies this
      ensures getter.None? ==> g == null && groups == old(groups)
      ensures getter.Some? ==>
        && g != null && fresh(g)
        && g.name == name && g.getter == getter.value
        && g.mainCache == map[] && g.peers == null
        && groups == old(groups)[name := g]
      ensures getter.Some? ==> GetGroup(name) == g
      ensures forall n :: n != name ==> GetGroup(n) == old(GetGroup(n))
    {
      if getter.None? {
        return null;
      }
      g := new Group(name, getter.value);
      groups := groups[name := g];
    }
  }

  /** After a Get that loaded and cached its value, a second Get of the same
      key (with nothing evicted) returns the same bytes and calls nothing. */
  lemma GetAfterLoad(g: Group, store: map<Bytes, Bytes>, key: Bytes, env: Env)
    requires g.Ready(env)
    requires g.GetOutcome(store, key, env).result.Ok?
    requires Loaded(key) in g.GetOutcome(store, key, env).calls
    ensures var s := g.GetOutcome(store, key, env);
            g.GetOutcome(s.store, key, env) == Step(s.result, s.store, [])
  {
    var s := g.GetOutcome(store, key, env);
    assert key != [] && key !in store;
    if g.RemoteHit(key, env) {
      LoadServedRemotely(g, store, key, env);
      assert false;
    } else {
      LoadFallsBack(g, store, key, env);
    }
  }

  /** A value served by a remote peer is never cached by the requester, so
      the next Get of the key makes the same round trip again. */
  lemma RemoteHitRepeats(g: Group, store: map<Bytes, Bytes>, key: Bytes, env: Env)
    requires g.Ready(env)
    requires key != [] && key !in store
    requires g.RemoteHit(key, env)
    ensures var s := g.GetOutcome(store, key, env);
            && key !in s.store
            && g.GetOutcome(s.store, key, env) == s
  {
    LoadServedRemotely(g, store, key, env);
  }

  /** Every error Get reports is either the empty-key error or the loader's:
      remote failures are never surfaced. */
  lemma GetErrorsAreLocal(g: Group, store: map<Bytes, Bytes>, key: Bytes, env: Env)
    requires g.Ready(env)
    ensures var s := g.GetOutcome(store, key, env);
            s.result.Err? ==> (key == [] && s.result == Err(KeyRequired)) || s.result == g.getter(key)
  {
    if key != [] && key !in store {
      if g.RemoteHit(key, env) {
        LoadServedRemotely(g, store, key, env);
      } else {
        LoadFallsBack(g, store, key, env);
      }
    }
  }

  /** The score table the repository's test loads from. */
  function Scores(key: Bytes): (r: Result<Bytes>)
    ensures key == Text("Tom") ==> r == Ok(Text("630"))
    ensures key == Text("Jack") ==> r == Ok(Text("589"))
    ensures key == Text("Sam") ==> r == Ok(Text("567"))
    ensures key !in {Text("Tom"), Text("Jack"), Text("Sam")} ==> r == Err(Error(key + Text(" not exist")))
    ensures r.Err? ==> r.error == Error(key + Text(" not exist"))
  {
    if key == Text("Tom") then Ok(Text("630"))
    else if key == Text("Jack") then Ok(Text("589"))
    else if key == Text("Sam") then Ok(Text("567"))
    else Err(Error(key + Text(" not exist")))
  }

  /** On a single node with no picker: the first Get of "Tom" loads "630"
      once, the second is a hit, and an unknown key reports the loader's
      error. */
  lemma ScoresScenario(g: Group, env: Env)
    requires g.getter == Scores && g.peers == null
    ensures var tom := Text("Tom");
            var first := g.GetOutcome(map[], tom, env);
            && first == Step(Ok(Text("630")), map[tom := Text("630")], [Loaded(tom)])
            && g.GetOutcome(first.store, tom, env) == Step(Ok(Text("630")), first.store, [])
    ensures g.GetOutcome(map[], Text("Nobody"), env) ==
            Step(Err(Error(Text("Nobody") + Text(" not exist"))), map[], [Loaded(Text("Nobody"))])
  {
    var nobody := Text("Nobody");
    assert |nobody| == 6;
    assert nobody != Text("Tom") && nobody != Text("Jack") && nobody != Text("Sam");
  }

  /** The test's own configuration: a picker that `Set` gave only this node's
      address. Every key is owned locally, so the picker is asked and then
      Get proceeds as on a single node. */
  lemma ScoresScenarioWithPicker(g: Group, env: Env)
    requires g.getter == Scores && g.Ready(env) && g.peers != null
    requires g.peers.ring.value.nodes == [g.peers.self]
    ensures var tom := Text("Tom");
            var first := g.GetOutcome(map[], tom, env);
            && first == Step(Ok(Text("630")), map[tom := Text("630")], [Picked(tom), Loaded(tom)])
            && g.GetOutcome(first.store, tom, env) == Step(Ok(Text("630")), first.store, [])
    ensures var nobody := Text("Nobody");
            g.GetOutcome(map[], nobody, env) ==
            Step(Err(Error(nobody + Text(" not exist"))), map[], [Picked(nobody), Loaded(nobody)])
  {
    var tom, nobody := Text("Tom"), Text("Nobody");
    assert tom != [] && nobody != [];
    OwnedBySelf(g, map[], tom, env);
    OwnedBySelf(g, map[], nobody, env);
    assert nobody != Text("Tom") && nobody != Text("Jack") && nobody != Text("Sam") by {
      assert |nobody| == 6;
    }
  }

  /** On a picker whose ring holds only this node, a miss asks the picker,
      gets "local" and loads. */
  lemma OwnedBySelf(g: Group, store: map<Bytes, Bytes>, key: Bytes, env: Env)
    requires g.Ready(env) && g.peers != null
    requires g.peers.ring.value.nodes == [g.peers.self]
    requires key != [] && key !in store
    ensures var s := g.GetOutcome(store, key, env);
            && s.result == g.getter(key) && s.calls == [Picked(key), Loaded(key)]
            && s.store == (if s.result.Ok? then store[key := s.result.value] else store)
            && (s.result.Ok? ==> g.GetOutcome(s.store, key, env) == Step(s.result, s.store, []))
  {
    assert g.Remote(key, env).None?;
  }
}
