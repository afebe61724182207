/** The bttcp peer picker and the peer wire protocol: choosing the peer that
    owns a key, fetching from it as a client, and the server side's answer to
    an inbound request. */
module Bttcp {
  import opened Wire
  import opened Strconv

  newtype uint32 = x: int | 0 <= x < 0x1_0000_0000

  /** consistenthash.Hash: a checksum of a byte string. */
  type Hash = Bytes -> uint32

  /** A consistent-hash ring, as consistenthash.New(replicas, hash) followed
      by Add(nodes...) builds it. How it places nodes is not part of this
      model. */
  datatype Ring = Ring(replicas: int, hash: Hash, nodes: seq<Bytes>)

  /** The ring's Get: the node owning a key, or the empty string for none. */
  type Owner = (Ring, Bytes) -> Bytes

  /** bttcp.Client.Send to the peer at an address: the reply (None for a
      nil reply) or a transport error. */
  type Transport = (Bytes, Bytes) -> Result<Option<Bytes>>

  /** What the core reaches but cannot see: the protobuf codec, the
      network and the ring's lookup. */
  datatype Env = Env(codec: Codec, send: Transport, owner: Owner)

  /** The least the ring promises: a key is owned by no node or by one of the
      nodes the ring was built from. */
  ghost predicate OwnersAreNodes(owner: Owner) {
    forall r: Ring, k: Bytes :: owner(r, k) == [] || owner(r, k) in r.nodes
  }

  const DefaultReplicas: int := 50

  /** The package-level defaultReplicas and defaultHash that Set reads. */
  class Defaults {
    var replicas: int
    var hash: Hash

    /** `initialHash` stands for crc32.ChecksumIEEE. */
    constructor (initialHash: Hash)
      ensures replicas == DefaultReplicas && hash == initialHash
    {
      replicas := DefaultReplicas;
      hash := initialHash;
    }

    method SetHashReplicas(replicas: int)
      modifies this
      ensures this.replicas == replicas && hash == old(hash)
    {
      this.replicas := replicas;
    }

    method SetHash(fn: Hash)
      modifies this
      ensures hash == fn && replicas == old(replicas)
    {
      hash := fn;
    }
  }

  /** bttcpGetter: the client for one peer, known by its address. */
  datatype Getter = Getter(baseURL: Bytes)

  /** The getter table Set builds: one getter per peer, addressed to it. */
  ghost function Table(peers: seq<Bytes>): map<Bytes, Getter> {
    map q | q in peers :: Getter(q)
  }

  class BttcpPicker {
    const self: Bytes
    var ring: Option<Ring>
    var getters: map<Bytes, Getter>

    /** The ring and the getter table always describe the same peers:
        none before the first Set. */
    ghost predicate Valid()
      reads this
    {
      match ring
      case None => getters == map[]
      case Some(r) => getters == Table(r.nodes)
    }

    /** NewBttcpPicker */
    constructor (self: Bytes)
      ensures this.self == self && ring == None && getters == map[]
      ensures Valid()
    {
      this.self := self;
      ring := None;
      getters := map[];
    }

    /** The getter of the key's owner, or None to serve the key locally:
        remote exactly when the ring names an owner other than this peer. */
    function PickPeer(key: Bytes, owner: Owner): (peer: Option<Getter>)
      reads this
      requires Valid() && ring.Some? && OwnersAreNodes(owner)
      ensures peer.Some? <==> owner(ring.value, key) != [] && owner(ring.value, key) != self
      ensures peer.Some? ==> owner(ring.value, key) in getters && peer.value == getters[owner(ring.value, key)]
      ensures peer.Some? ==> peer.value.baseURL == owner(ring.value, key) && peer.value.baseURL != self
    {
      var o := owner(ring.value, key);
      if o != [] && o != self then Some(getters[o]) else None
    }

    /** Replaces the ring and the getter table by ones built from `peers`
        with the current defaults. */
    method Set(peers: seq<Bytes>, defaults: Defaults)
      modifies this
      ensures Valid()
      ensures ring == Some(Ring(defaults.replicas, defaults.hash, peers))
      ensures getters.Keys == set q | q in peers
      ensures forall q :: q in getters ==> getters[q].baseURL == q
    {
      ring := Some(Ring(defaults.replicas, defaults.hash, peers));
      getters := map[];
      for i := 0 to |peers|
        invariant ring == Some(Ring(defaults.replicas, defaults.hash, peers))
        invariant getters == Table(peers[..i])
      {
        assert peers[..i + 1] == peers[..i] + [peers[i]];
        getters := getters[peers[i] := Getter(peers[i])];
      }
      assert peers[..|peers|] == peers;
    }
  }

  const NoResponse: Error := Error(Text("no response from server"))

  /** bttcpGetter.Get: ask the peer `g` for `key` of `group`. */
  function FetchFromPeer(c: Codec, send: Transport, g: Getter, group: Bytes, key: Bytes): (r: Result<Bytes>)
    // A success is the value of a 200 reply the peer gave to exactly this request.
    ensures r.Ok? ==>
      && c.marshalRequest(Request(group, key)).Ok?
      && var reply := send(g.baseURL, c.marshalRequest(Request(group, key)).value);
      && reply.Ok? && reply.value.Some?
      && c.unmarshalResponse(reply.value.value) == Ok(Response(r.value, 200))
    // Errors of the encoding and of the transport are passed on as they are.
    ensures c.marshalRequest(Request(group, key)).Err? ==> r == Err(c.marshalRequest(Request(group, key)).error)
    ensures c.marshalRequest(Request(group, key)).Ok? ==>
      var reply := send(g.baseURL, c.marshalRequest(Request(group, key)).value);
      && (reply.Err? ==> r == Err(reply.error))
      && (reply == Ok(None) ==> r == Err(NoResponse))
      && (reply.Ok? && reply.value.Some? ==>
            var res := c.unmarshalResponse(reply.value.value);
            && (res.Err? ==> r == Err(res.error))
            // A 200 reply's value is the result.
            && (res.Ok? && res.value.code == 200 ==> r == Ok(res.value.value))
            // Any other code: the reply's value is the error text.
            && (res.Ok? && res.value.code != 200 ==> r == Err(Error(res.value.value))))
  {
    match c.marshalRequest(Request(group, key))
    case Err(e) => Err(e)
    case Ok(body) =>
      match send(g.baseURL, body)
      case Err(e) => Err(e)
      case Ok(None) => Err(NoResponse)
      case Ok(Some(b)) =>
        match c.unmarshalResponse(b)
        case Err(e) => Err(e)
        case Ok(res) => if res.code != 200 then Err(Error(res.value)) else Ok(res.value)
  }

  const NoGroup: Bytes := Text("no group")

  /** The handler's last step: the marshalled response, or nil (None) when
      marshalling fails. */
  function Respond(c: Codec, res: Response): (reply: Option<Bytes>)
    ensures reply.None? <==> c.marshalResponse(res).Err?
    ensures RoundTrips(c) && reply.Some? ==> c.unmarshalResponse(reply.value) == Ok(res)
  {
    match c.marshalResponse(res)
    case Ok(body) => Some(body)
    case Err(_) => None
  }

  /** The handler either answers at once or serves a request from a group. */
  datatype Routing = Reply(reply: Option<Bytes>) | Serve(request: Request)

  /** The handler's first steps on an inbound payload, given the names under
      which groups are registered. */
  function Route(c: Codec, b: Bytes, registered: set<Bytes>): (r: Routing)
    // A group is asked only for a request that decodes and names a registered group.
    ensures r.Serve? <==> c.unmarshalRequest(b).Ok? && c.unmarshalRequest(b).value.group in registered
    ensures r.Serve? ==> r.request == c.unmarshalRequest(b).value
    // A payload that does not decode gets a 500 with the decoding error's text.
    ensures c.unmarshalRequest(b).Err? ==>
      r == Reply(Respond(c, Response(c.unmarshalRequest(b).error.text, 500)))
    // A request for an unknown group gets a 404 "no group".
    ensures c.unmarshalRequest(b).Ok? && c.unmarshalRequest(b).value.group !in registered ==>
      r == Reply(Respond(c, Response(NoGroup, 404)))
  {
    match c.unmarshalRequest(b)
    case Err(e) => Reply(Respond(c, Response(e.text, 500)))
    case Ok(req) =>
      if req.group !in registered then Reply(Respond(c, Response(NoGroup, 404)))
      else Serve(req)
  }

  /** The handler's reply to what the group's Get returned. */
  function Answer(c: Codec, outcome: Result<Bytes>): (reply: Option<Bytes>)
    // Nil only when the response cannot be marshalled.
    ensures reply.None? <==>
      c.marshalResponse(if outcome.Ok? then Response(outcome.value, 200) else Response(outcome.error.text, 500)).Err?
    ensures RoundTrips(c) && reply.Some? ==>
      c.unmarshalResponse(reply.value) ==
        match outcome
        case Ok(v) => Ok(Response(v, 200))
        case Err(e) => Ok(Response(e.text, 500))
  {
    match outcome
    case Err(e) => Respond(c, Response(e.text, 500))
    case Ok(v) => Respond(c, Response(v, 200))
  }

  /** The whole handler of ListenAndServe; `outcome` is what the named
      group's Get returns for the request's key, and matters only when a
      group is asked. */
  function Handler(c: Codec, b: Bytes, registered: set<Bytes>, outcome: Result<Bytes>): (reply: Option<Bytes>)
    // Every reply decodes to a 200, a 404 or a 500, and only a group's value is sent with a 200.
    ensures RoundTrips(c) && reply.Some? ==>
      && c.unmarshalResponse(reply.value).Ok?
      && c.unmarshalResponse(reply.value).value.code in {200, 404, 500}
      && (c.unmarshalResponse(reply.value).value.code == 200 ==>
            Route(c, b, registered).Serve? && outcome == Ok(c.unmarshalResponse(reply.value).value.value))
    // Nil only when the chosen response cannot be marshalled.
    ensures c.unmarshalRequest(b).Err? ==>
      (reply.None? <==> c.marshalResponse(Response(c.unmarshalRequest(b).error.text, 500)).Err?)
    // A payload that does not decode is answered with a 500 carrying the decoding error's text.
    ensures c.unmarshalRequest(b).Err? ==> reply == Respond(c, Response(c.unmarshalRequest(b).error.text, 500))
    ensures c.unmarshalRequest(b).Ok? ==> reply == Respond(c, HandlerResponse(c, b, registered, outcome))
  {
    match Route(c, b, registered)
    case Reply(reply) => reply
    case Serve(_) => Answer(c, outcome)
  }

  /** The response the handler sends for a payload `b` that decodes: the
      404 that Route answers for an unknown group, or the Answer to the
      group's outcome. */
  function HandlerResponse(c: Codec, b: Bytes, registered: set<Bytes>, outcome: Result<Bytes>): (res: Response)
    requires c.unmarshalRequest(b).Ok?
    ensures Route(c, b, registered).Reply? ==> Route(c, b, registered).reply == Respond(c, res)
    ensures Route(c, b, registered).Serve? ==> Answer(c, outcome) == Respond(c, res)
  {
    if c.unmarshalRequest(b).value.group !in registered then Response(NoGroup, 404)
    else match outcome
      case Ok(v) => Response(v, 200)
      case Err(e) => Response(e.text, 500)
  }

  /** A client that receives the marshalled form of `res` reads it back as
      its value (code 200) or as an error carrying its value as text. */
  lemma FetchOfResponse(c: Codec, send: Transport, g: Getter, group: Bytes, key: Bytes, res: Response)
    requires RoundTrips(c)
    requires c.marshalRequest(Request(group, key)).Ok?
    requires send(g.baseURL, c.marshalRequest(Request(group, key)).value) == Ok(Respond(c, res))
    ensures FetchFromPeer(c, send, g, group, key) ==
      if Respond(c, res).None? then Err(NoResponse)
      else if res.code != 200 then Err(Error(res.value))
      else Ok(res.value)
  {
  }

  /** Over a transport that delivers the handler's reply, a client's fetch
      returns exactly what the remote group's Get returned, "no group" for
      an unknown group, and "no response from server" when the handler had
      to answer nil. */
  lemma FetchSeesHandler(c: Codec, send: Transport, g: Getter, group: Bytes, key: Bytes,
                         registered: set<Bytes>, outcome: Result<Bytes>)
    requires RoundTrips(c)
    requires c.marshalRequest(Request(group, key)).Ok?
    requires var body := c.marshalRequest(Request(group, key)).value;
             send(g.baseURL, body) == Ok(Handler(c, body, registered, outcome))
    ensures var reply := Handler(c, c.marshalRequest(Request(group, key)).value, registered, outcome);
            FetchFromPeer(c, send, g, group, key) ==
              if reply.None? then Err(NoResponse)
              else if group !in registered then Err(Error(NoGroup))
              else outcome
  {
    var body := c.marshalRequest(Request(group, key)).value;
    assert c.unmarshalRequest(body) == Ok(Request(group, key));
    var res := HandlerResponse(c, body, registered, outcome);
    assert Handler(c, body, registered, outcome) == Respond(c, res);
    FetchOfResponse(c, send, g, group, key, res);
    if group in registered && outcome.Err? {
      assert res == Response(outcome.error.text, 500);
      assert Error(res.value) == outcome.error;
    }
  }

  /** The listening port: the second ':'-separated field of the picker's
      own address. Where the source panics there is no port. */
  datatype Port = Port(number: int) | NoPortField | NotAnInteger(field: Bytes)

  function ParsePort(self: Bytes): (p: Port)
    // Split's second field is missing exactly when there is no ':'.
    ensures p == NoPortField <==> Colon !in self
    ensures p.Port? ==> MinInt64 <= p.number <= MaxInt64
    // Otherwise the second field is the port, if Atoi accepts it.
    ensures Colon in self ==> (p.Port? <==> Atoi(Split(self, Colon)[1]).Some?)
    ensures p.Port? ==> Atoi(Split(self, Colon)[1]) == Some(p.number)
    ensures p.NotAnInteger? ==> p.field == Split(self, Colon)[1] && Atoi(p.field).None?
  {
    var fields := Split(self, Colon);
    if |fields| < 2 then NoPortField
    else
      match Atoi(fields[1])
      case Some(n) => Port(n)
      case None => NotAnInteger(fields[1])
  }

  /** A "host:port" address yields its port. */
  lemma ParsePortOfAddress(host: Bytes, port: nat)
    requires Colon !in host
    requires port <= MaxInt64
    ensures ParsePort(host + [Colon] + Decimal(port)) == Port(port)
  {
    var digits := Decimal(port);
    SplitAfterFirst(host, digits, Colon);
    assert Colon !in digits by {
      forall i | 0 <= i < |digits| ensures digits[i] != Colon {
        assert IsDigit(digits[i]);
      }
    }
    var rest := Split(digits, Colon);
    assert |rest| == 1 && rest[0] == digits;
  }
}
