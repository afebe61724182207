# groupcache: the cache group and the bttcp peer protocol

This project models, in Dafny, the core of go-needle/groupcache. That core is a read-through
cache split into namespaces called groups. Each group serves a key from its local store, or
asks the peer that owns the key on a consistent-hash ring, or falls back to the group's own
loader and caches whatever the loader returns. The peers talk over a small request/response
protocol carried by the bttcp transport.

Modules:

- `Wire` (wire.dfy): bytes, errors, `Result`/`Option`, and the two messages `Request{group, key}` and
  `Response{value, code}`. The protobuf codec is a `Codec` value made of four functions. The
  hypothesis `RoundTrips(c)` says that unmarshalling what was marshalled gives back the same message.
  A Go `string` is a sequence of bytes. So keys, group names, addresses and error texts are all
  `Bytes`, and `[]byte(s)` and `string(b)` are the identity.
- `Strconv` (strconv.dfy): `strings.Split` with a one-byte separator and `strconv.Atoi` for a 64-bit
  `int`. Port parsing needs both.
- `Bttcp` (bttcp.dfy): the globals `defaultReplicas`/`defaultHash` (class `Defaults`), the
  `BttcpPicker` class (`PickPeer`, `Set`), the client side `bttcpGetter.Get` (`FetchFromPeer`), the
  pure steps of the server handler (`Route`, `Respond`, `Answer`, `Handler`), and port parsing
  (`ParsePort`). The ring is the value `Ring(replicas, hash, nodes)` that `Set` builds. The ring's
  key lookup is the oracle `Env.owner`, where `""` means no owner.
- `GroupCache` (groupcache.dfy): the `Group` class, which has a `mainCache` map and a `peers` field,
  and the `Registry` class, which holds the name→group map. `Group.Get` is proved against the
  function `GetOutcome`. `GetOutcome` returns a `Step`: the result, the store afterwards, and the
  calls made to the picker, the peer and the loader, in order. The loader is a total function
  stored in the group. The peer's transport is the oracle `Env.send`.
- `Server` (server.dfy): the handler closure of `ListenAndServe` as a method on a registry. It has
  its own module because it depends on both `Bttcp` and `GroupCache`, and Dafny modules cannot
  import each other in a cycle.

Panics are modelled as outcomes. `RegisterPeers` returns `true`. `NewGroup` returns `null`.
`ParsePort` returns `NoPortField` or `NotAnInteger`.

## Model

| member | source | states |
|---|---|---|
| `Strconv.Split` | bttcp.go:111 | the fields join back to the input, no field contains the separator, and there is exactly one field iff the separator does not occur |
| `Strconv.SplitAfterFirst` | bttcp.go:111 | splitting `head ":" tail`, where head has no ':', gives `head` followed by the fields of `tail` |
| `Strconv.Atoi` | bttcp.go:112-115 | a success is an optional sign followed by one or more digits and lies in the int64 range; an unsigned, `+` or `-` digit string parses to its (signed) decimal value when in range and is an error when out of range; the empty string and a string starting with anything other than a sign or a digit are errors |
| `Bttcp.ParsePort` | bttcp.go:111-115 | the port field is missing (index-out-of-range panic) exactly when the address has no ':'; otherwise the port is the Atoi value of the second ':'-separated field, and a field Atoi rejects is reported as not an integer (the Atoi panic) |
| `Bttcp.ParsePortOfAddress` | bttcp.go:111-115 | `host:port`, where host has no ':', yields exactly that port |
| `Bttcp.Defaults.constructor` | bttcp.go:17-20 | replicas start at 50 and the hash starts at the given checksum |
| `Bttcp.Defaults.SetHashReplicas` | bttcp.go:68-70 | overwrites the replica count and leaves the hash unchanged |
| `Bttcp.Defaults.SetHash` | bttcp.go:72-74 | overwrites the hash and leaves the replica count unchanged |
| `Bttcp.BttcpPicker.constructor` | bttcp.go:34-38 | a new picker has its own address, no ring and no getters |
| `Bttcp.BttcpPicker.PickPeer` | bttcp.go:46-54 | remote iff the ring's owner of the key is non-empty and differs from `self`; the getter returned is `getters[owner]`, and its address is the owner's |
| `Bttcp.BttcpPicker.Set` | bttcp.go:57-66 | the old ring and table are replaced; the ring is built from the given peers with the current defaults; the table's keys are exactly the peers, and each getter is addressed to its key |
| `Bttcp.FetchFromPeer` | bttcp.go:124-145 | marshal and transport errors are passed on; a nil reply is "no response from server"; an undecodable reply is the decode error; a non-200 reply's value is the error text; a 200 reply's value is the result; a success is the value of a 200 reply to exactly this request |
| `Bttcp.Respond` | bttcp.go:82-86 | nil iff marshalling fails; under codec round-trip, the reply decodes to the response |
| `Bttcp.Route` | bttcp.go:79-95 | undecodable payload: 500 with the decode error's text; unregistered group: 404 "no group" without asking any group; a group is asked iff the request decodes and names a registered group |
| `Bttcp.Answer` | bttcp.go:96-109 | the reply is nil exactly when the chosen response (500 with the error's text, or 200 with the value) cannot be marshalled; under codec round-trip a non-nil reply decodes to that response |
| `Bttcp.Handler` | bttcp.go:78-110 | an undecodable payload is answered with the marshalled 500 carrying the decode error's text (nil exactly when that cannot be marshalled); a decodable payload with the marshalled `HandlerResponse`; under codec round-trip, every non-nil reply decodes to code 200, 404 or 500, and a 200 carries exactly the served group's value |
| `Bttcp.HandlerResponse` | bttcp.go:88-107 | the response the handler marshals for a decodable payload: the reply Route gives for an unknown group, or the Answer to the group's outcome |
| `Bttcp.FetchOfResponse` | bttcp.go:124-145 | under codec round-trip, a transport that delivers an encoded response gives the client that response's value on 200, its value as the error text otherwise, and "no response from server" for a nil reply |
| `Bttcp.FetchSeesHandler` | bttcp.go:78-145 | over a transport that delivers the handler's reply, the client gets the remote Get's exact outcome, "no group" for an unknown group, or "no response from server" when the handler answered nil |
| `GroupCache.Group.constructor` | groupcache.go:44-48 | a new group has its name and loader, an empty store and no picker |
| `GroupCache.Group.GetFromPeer` | groupcache.go:100-106 | the peer is asked for this group's name and the key; a 200 reply's value is returned, a success is always such a value, and every error of the peer's Get (encoding, transport, nil reply, decoding, non-200) is returned unchanged |
| `GroupCache.Group.GetOutcome` | groupcache.go:63-77 | the empty key gives "key is required", calls nothing and leaves the store unchanged; a hit returns the stored bytes and calls nothing; a miss loads; the store only ever gains the missed key, mapped to the returned value |
| `GroupCache.Group.LoadOutcome` | groupcache.go:87-98 | with a picker registered, the picker is asked first and only once; without one, it is never asked |
| `GroupCache.Group.LocalOutcome` | groupcache.go:108-116 | one loader call; its outcome is the result, a success is stored under the key and an error leaves the store unchanged |
| `GroupCache.LoadServedRemotely` | groupcache.go:89-92 | when a peer is picked and answers, its value is returned as is and not cached, the loader is not called, and the calls are exactly one pick and one fetch |
| `GroupCache.LoadFallsBack` | groupcache.go:87-98 | with no remote value (no picker, no remote owner, or a failing peer) the loader is called exactly once and last; its outcome is the result, so a remote error never surfaces; its value is cached on success and nothing changes on error |
| `GroupCache.LoadOnlyAddsKey` | groupcache.go:87-116 | load changes the store only by adding the key, mapped to the value it returns |
| `GroupCache.Group.Get` | groupcache.go:63-77 | the result, the calls made and the new store are those of `GetOutcome` on the old store |
| `GroupCache.Group.Load` | groupcache.go:87-98 | the result, the calls made and the new store are those of `LoadOutcome` on the old store |
| `GroupCache.Group.GetLocally` | groupcache.go:108-116 | one loader call; its value is returned and stored under the key, and on error the store is unchanged |
| `GroupCache.Group.RegisterPeers` | groupcache.go:80-85 | panics iff a picker is already set, and then that picker stays; otherwise the given picker is set |
| `GroupCache.Group.Evict` | groupcache.go:47 | the store loses exactly the given keys (capacity eviction or expiry in the LRU) |
| `GroupCache.GetAfterLoad` | groupcache.go:68-76 | after a Get that called the loader and succeeded, a second Get of that key returns the same bytes and calls nothing |
| `GroupCache.RemoteHitRepeats` | groupcache.go:89-92 | after a remote hit the key is still absent locally, so the next Get makes the same round trip |
| `GroupCache.GetErrorsAreLocal` | groupcache.go:63-116 | every error Get returns is "key is required" for the empty key or the loader's own error |
| `GroupCache.Registry.constructor` | groupcache.go:32-35 | the registry starts empty |
| `GroupCache.Registry.GetGroup` | groupcache.go:55-60 | the group registered under the name, or null iff there is none |
| `GroupCache.Registry.NewGroup` | groupcache.go:38-51 | a missing loader panics and changes nothing; otherwise a fresh group with an empty store and no picker becomes the group under its name, replacing any earlier one, and the other names are unaffected |
| `GroupCache.Scores` | groupcache_test.go:12-26 | the test's loader: "Tom", "Jack" and "Sam" load "630", "589" and "567", and any other key reports "<key> not exist" |
| `GroupCache.ScoresScenario` | groupcache_test.go:18-27 | single node: the first Get("Tom") loads "630" once and caches it, the second one is a hit, and Get("Nobody") reports the loader's error |
| `GroupCache.OwnedBySelf` | groupcache.go:87-98 | with a picker whose ring holds only this node, a miss asks the picker, then the loader, and nothing else; the loader's outcome is the result, a success is cached and the next Get of the key is a hit |
| `GroupCache.ScoresScenarioWithPicker` | groupcache_test.go:18-32 | the test's configuration, a picker `Set` over this node alone: the first Get("Tom") asks the picker, loads "630" and caches it, the second is a hit, and Get("Nobody") reports the loader's error |
| `Server.Handle` | bttcp.go:78-110 | a payload that does not decode, or names no registered group, gets its immediate reply and no store changes; otherwise exactly the named group's Get runs, and its outcome becomes the reply; only stores change, so every picker stays registered and every group stays ready for the next request |
| `Server.RemoteGetThroughHandler` | groupcache.go:87-98 | a miss routed to a peer running the handler returns the owner's value, uncached, when the owner's group serves it, and otherwise the requester's own loader outcome |

## Left out

- The consistent-hash ring (`consistenthash.New`, `Add`, `Get`) is not part of this model. Its lookup is the oracle `Env.owner`, and no ring properties are claimed (for example bounded remapping).
- `Bttcp.BttcpPicker.PickPeer`: requires a ring built by `Set` and an owner oracle that answers `""` or one of the ring's peers (`OwnersAreNodes`). Before any `Set`, the source calls `Get` on a nil ring, whose behaviour depends on code that is not part of this model. A ring answer outside the peer list would make the code call a nil getter (bttcp.go:51, 129).
- `GroupCache.Group.Get`: requires `Ready(env)`, meaning any registered picker has been through `Set`. This is the same restriction as for PickPeer. `Server.Handle` requires it of every registered group.
- The LRU store's capacity and time-to-live (`cache.NewLRU`, `cacheBytes`, `keySurvivalTime`) are not modelled. The store is a map, and `Evict` stands for entries it drops. `GetAfterLoad` assumes that nothing is dropped between the two calls.
- Protobuf encoding is a `Codec` of function values. Its round-trip is the hypothesis `RoundTrips`.
- The bttcp transport (`NewClient`, `Send`, `NewServer`, `Run`) is the oracle `Env.send`: address and payload in, nil, bytes or an error out. The client's pool size, `s.Run(port)` and `NewBttcpClient` are left out as network I/O and a thin wrapper.
- Mutexes, logging (`Log`, `log.Println`) and `crc32.ChecksumIEEE` are left out. The `Defaults` constructor takes the initial hash as a parameter instead of crc32.
- The loader and the transport are deterministic functions. A loader whose answers change over time is not modelled.
- socket.go is an older copy of the picker that does not compile, and it is not part of this model.
- Go's `int` is taken to be 64 bits wide for `strconv.Atoi`.
- `Set` takes a list of peers, so the same address may be given twice; the table then holds it once.
- `NewGroup` replaces a group already registered under the same name, so the registry can lose a group.
- What the picker answers before its first `Set` depends on the ring's code, which is not part of this model, so `PickPeer` is only modelled after `Set`.
