/** The state the reconciler acts on (state.go, and the Docker, Headscale and tsnet
    seams), with every external call as a function of the state and of the answer the
    other side gives. Theorems quantify over all answers. */
module World {
  import opened Text
  import opened Gateway

  datatype Service = Service(version: nat, spec: ServiceSpec)

  datatype GatewayRef = GatewayRef(target: string, serviceId: string, keyId: string, hash: Hash)

  datatype ProxyHash = NoProxyHash | ProxyHash(
    hostname: string, target: string, ports: seq<nat>, stateDir: string, loginURL: string, tags: seq<string>)

  /** The store's record for one app service. */
  datatype Entry = Entry(
    proxy: Option<nat>, specHash: ProxyHash, preAuthKey: string,
    gateways: seq<GatewayRef>, gatewayHash: SetHash)

  datatype ProxyConfig = ProxyConfig(
    hostname: string, target: string, ports: seq<nat>, stateDir: string, loginURL: string, tags: seq<string>)

  /** What a proxy is started with. */
  datatype Launch = Launch(config: ProxyConfig, authKey: string)

  const ZERO_ENTRY := Entry(None, NoProxyHash, "", [], NoSetHash)

  datatype Key = Key(id: string, secret: string)

  /** `ids` are the service IDs Docker has ever handed out and `made` those it handed to
      this daemon; `minted` and `expired` are the keys ever minted and ever passed to
      ExpireKey; `started` and `closed` are the proxy handles ever started and the
      multiset of Close calls, and `launched` says what each was started with. */
  datatype World = World(
    store: map<string, Entry>,
    services: map<string, Service>,
    ids: set<string>,
    made: set<string>,
    minted: set<string>,
    expired: set<string>,
    started: set<nat>,
    closed: multiset<nat>,
    launched: map<nat, Launch>)

  /** What a step leaves behind and whether it returned no error. */
  datatype Step = Step(w: World, ok: bool)

  /** Store.Get: a missing entry reads as the zero entry. */
  function EntryOf(w: World, id: string): Entry {
    if id in w.store then w.store[id] else ZERO_ENTRY
  }

  function Put(w: World, id: string, e: Entry): World { w.(store := w.store[id := e]) }

  function Delete(w: World, id: string): World { w.(store := w.store - {id}) }

  // ---------- Docker ----------

  function Named(w: World, name: string): set<string> {
    set s | s in w.services && w.services[s].spec.name == name
  }

  function Gateways(w: World, app: string): set<string> {
    set s | s in w.services && MarkedFor(w.services[s].spec, app)
  }

  datatype Created = Created(id: string) | Exists | CreateFailed

  /** CreateService. Docker refuses a taken name; an answer that reuses an ID is not one
      Docker gives and reads as a failed call, which leaves everything unchanged. */
  function CreateService(w: World, spec: ServiceSpec, answer: Option<string>): (World, Created) {
    if answer.None? then (w, CreateFailed)
    else if Named(w, spec.name) != {} then (w, Exists)
    else if answer.value in w.ids then (w, CreateFailed)
    else
      (w.(services := w.services[answer.value := Service(1, spec)],
          ids := w.ids + {answer.value}, made := w.made + {answer.value}),
       Created(answer.value))
  }

  predicate Updatable(w: World, id: string, version: nat, spec: ServiceSpec) {
    id in w.services && w.services[id].version == version && Named(w, spec.name) <= {id}
  }

  /** UpdateService: refused on a stale version, a missing service or a name another
      service holds. */
  function UpdateService(w: World, id: string, version: nat, spec: ServiceSpec, answer: bool): (World, bool) {
    if answer && Updatable(w, id, version, spec)
    then (w.(services := w.services[id := Service(version + 1, spec)]), true)
    else (w, false)
  }

  lemma UpdateServiceIs(w: World, id: string, version: nat, spec: ServiceSpec, answer: bool)
    ensures var (w', ok) := UpdateService(w, id, version, spec, answer);
            if ok then id in w.services && w' == w.(services := w.services[id := Service(version + 1, spec)]) else w' == w
  {
    hide Named;
  }

  lemma CreateServiceIs(w: World, spec: ServiceSpec, answer: Option<string>)
    ensures var (w', c) := CreateService(w, spec, answer);
            if c.Created? then
              && answer == Some(c.id) && c.id !in w.ids
              && w' == w.(services := w.services[c.id := Service(1, spec)], ids := w.ids + {c.id}, made := w.made + {c.id})
            else w' == w
  {
    hide Named;
  }

  /** RemoveService: removing a missing service succeeds. */
  function RemoveService(w: World, id: string, answer: bool): (World, bool) {
    if answer then (w.(services := w.services - {id}), true) else (w, false)
  }

  // ---------- Headscale ----------

  /** CreateEphemeralKey: a minted key ID is new and not empty. */
  function Mint(w: World, answer: Option<Key>): (World, Option<Key>) {
    if answer.None? || answer.value.id == "" || answer.value.id in w.minted then (w, None)
    else (w.(minted := w.minted + {answer.value.id}), answer)
  }

  /** Minting touches nothing but the taken key IDs. */
  lemma MintKeeps(w: World, answer: Option<Key>)
    ensures var (w', key) := Mint(w, answer);
            && w' == w.(minted := w'.minted) && (key.Some? ==> key == answer) && (key.None? ==> w' == w)
            && w'.minted <= w.minted + (if answer.Some? then {answer.value.id} else {})
  {
  }

  /** expireOrLog: the request counts, its result is only logged. */
  function Expire(w: World, key: string): World {
    if key == "" then w else w.(expired := w.expired + {key})
  }

  // ---------- tsnet proxies ----------

  function StartProxy(w: World, launch: Launch, answer: Option<nat>): (World, Option<nat>) {
    if answer.None? || answer.value in w.started then (w, None)
    else (w.(started := w.started + {answer.value}, launched := w.launched[answer.value := launch]), answer)
  }

  function CloseProxy(w: World, proxy: nat): World {
    w.(closed := w.closed + multiset{proxy})
  }
}
