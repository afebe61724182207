/** The handler that BttcpPicker.ListenAndServe installs: it decodes an
    inbound request, finds the named group in the registry and answers with
    that group's Get. It sits in its own module because it joins the peer
    protocol to the groups, which in turn use the peer picker. */
module Server {
  import opened Wire
  import opened Bttcp
  import opened GroupCache

  method Handle(registry: Registry, env: Env, b: Bytes) returns (reply: Option<Bytes>, served: Option<Step>)
    requires forall g :: g in registry.groups.Values ==> g.Ready(env)
    modifies registry.groups.Values`mainCache
    ensures registry.groups == old(registry.groups)
    // The pickers stay as they were, so the groups stay ready for the next request.
    ensures forall g :: g in registry.groups.Values ==> g.peers == old(g.peers) && g.Ready(env)
    ensures match Route(env.codec, b, old(registry.groups.Keys))
      // Nothing decodes, or no such group: no Get is made and no store changes.
      case Reply(answer) =>
        && reply == answer && served.None?
        && forall g :: g in old(registry.groups.Values) ==> g.mainCache == old(g.mainCache)
      // Otherwise exactly that group's Get is made, and its outcome is the reply.
      case Serve(req) =>
        var g := old(registry.groups[req.group]);
        && served == Some(old(g.GetOutcome(g.mainCache, req.key, env)))
        && g.mainCache == served.value.store
        && reply == Answer(env.codec, served.value.result)
        && forall h :: h in old(registry.groups.Values) && h != g ==> h.mainCache == old(h.mainCache)
  {
    var c := env.codec;
    var decoded := c.unmarshalRequest(b);
    if decoded.Err? {
      return Respond(c, Response(decoded.error.text, 500)), None;
    }
    var req := decoded.value;
    var g := registry.GetGroup(req.group);
    if g == null {
      return Respond(c, Response(NoGroup, 404)), None;
    }
    var r, calls := g.Get(req.key, env);
    served := Some(Step(r, g.mainCache, calls));
    reply := Answer(c, r);
  }

  /** A miss that the picker routes to a peer whose server runs this handler:
      the requester returns the owner's value without caching it when the
      owner's group serves it, and otherwise falls back to its own loader. */
  lemma RemoteGetThroughHandler(g: Group, store: map<Bytes, Bytes>, key: Bytes, env: Env,
                                registered: set<Bytes>, outcome: Result<Bytes>)
    requires RoundTrips(env.codec) && g.Ready(env)
    requires key != [] && key !in store
    requires g.Remote(key, env).Some?
    requires env.codec.marshalRequest(Request(g.name, key)).Ok?
    requires var body := env.codec.marshalRequest(Request(g.name, key)).value;
             env.send(g.Remote(key, env).value.baseURL, body) == Ok(Handler(env.codec, body, registered, outcome))
    ensures var body := env.codec.marshalRequest(Request(g.name, key)).value;
            var s := g.GetOutcome(store, key, env);
            if Handler(env.codec, body, registered, outcome).Some? && g.name in registered && outcome.Ok?
            then s.result == outcome && s.store == store
            else s.result == g.getter(key)
  {
    var peer := g.Remote(key, env).value;
    assert g.GetOutcome(store, key, env) == g.LoadOutcome(store, key, env);
    FetchSeesHandler(env.codec, env.send, peer, g.name, key, registered, outcome);
    if g.RemoteHit(key, env) {
      LoadServedRemotely(g, store, key, env);
    } else {
      LoadFallsBack(g, store, key, env);
    }
  }
}
