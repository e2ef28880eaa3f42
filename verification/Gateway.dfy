/** Egress gateway companions (egress_gateway.go, gateway_run.go): names, the service
    spec, and the hashes the reconciler compares. A SHA-256 over a JSON payload is
    modelled by the payload itself, so equal hashes mean equal payloads. */
module Gateway {
  import opened Text
  import opened Sorting
  import opened Targets

  // ---------- the slice of the Docker API types in play ----------

  datatype NetworkAttachment = NetworkAttachment(target: string, aliases: seq<string>)

  datatype ContainerSpec = ContainerSpec(image: string, command: seq<string>, args: seq<string>, env: seq<string>)

  datatype PortConfig = PortConfig(protocol: string, targetPort: nat)

  datatype ServiceSpec = ServiceSpec(
    name: string,
    labels: map<string, string>,
    container: Option<ContainerSpec>,
    networks: seq<NetworkAttachment>,
    legacyNetworks: seq<NetworkAttachment>,
    ports: Option<seq<PortConfig>>)

  /** The daemon settings the specs read. `digest` stands for the first eight hex digits
      of SHA-256. */
  datatype Config = Config(loginURL: string, stateDir: string, digest: string -> string)

  datatype EgressSpec = EgressSpec(hostname: string, tag: string, network: string, targets: seq<EgressTarget>)

  const GATEWAY_FOR := "tailswarm.gateway.for"
  const ENV_URL := "TAILSWARM_HEADSCALE_URL"
  const ENV_STATE_DIR := "TAILSWARM_TSNET_STATE_DIR"
  const ENV_HOSTNAME := "TAILSWARM_GATEWAY_HOSTNAME"
  const ENV_TAG := "TAILSWARM_GATEWAY_TAG"
  const ENV_TARGETS := "TAILSWARM_GATEWAY_TARGETS"
  const ENV_AUTH_KEY := "TAILSWARM_GATEWAY_AUTH_KEY"
  const MAX_HOSTNAME := 63

  // ---------- names ----------

  ghost predicate EightHex(digest: string -> string) {
    forall a :: |digest(a)| == 8
  }

  /** gatewayHostname. */
  function Hostname(cfg: Config, base: string, t: EgressTarget): string {
    var name := base + "-" + t.host;
    if |name| <= MAX_HOSTNAME then name
    else
      var suffix := "-" + cfg.digest(Addr(t));
      var keep := if MAX_HOSTNAME - |suffix| < 0 then 0 else MAX_HOSTNAME - |suffix|;
      name[..keep] + suffix
  }

  /** gatewayServiceName of the hostname. */
  function ServiceName(cfg: Config, base: string, t: EgressTarget): string {
    "tsgw-" + Hostname(cfg, base, t)
  }

  predicate Short(base: string, t: EgressTarget) { |base| + 1 + |t.host| <= MAX_HOSTNAME }

  lemma HostnameLength(cfg: Config, base: string, t: EgressTarget)
    requires EightHex(cfg.digest)
    ensures |Hostname(cfg, base, t)| <= MAX_HOSTNAME
    ensures Short(base, t) ==> Hostname(cfg, base, t) == base + "-" + t.host
    ensures !Short(base, t) ==>
              var h := Hostname(cfg, base, t);
              |h| == MAX_HOSTNAME && h[..54] == (base + "-" + t.host)[..54] && h[54..] == "-" + cfg.digest(Addr(t))
  {
    assert |cfg.digest(Addr(t))| == 8;
  }

  /** The name of `t`, uncut, is what the cap makes of the name of `u`. */
  predicate MeetsCut(cfg: Config, base: string, t: EgressTarget, u: EgressTarget)
    requires !Short(base, u)
  {
    var name := base + "-" + t.host;
    |name| == MAX_HOSTNAME && name[..54] == (base + "-" + u.host)[..54] && name[54..] == "-" + cfg.digest(Addr(u))
  }

  /** Two targets of one app get the same service name exactly when they share a host (names
      within the cap, ports ignored); once the cap cuts both, when they agree on the kept
      prefix and on the digest of the address; and when it cuts one, when the other is of
      full length and spells out that cut name. */
  lemma NamesCollideIff(cfg: Config, base: string, t: EgressTarget, u: EgressTarget)
    requires EightHex(cfg.digest)
    ensures ServiceName(cfg, base, t) == ServiceName(cfg, base, u) <==>
            if Short(base, t) && Short(base, u) then t.host == u.host
            else if Short(base, t) then MeetsCut(cfg, base, t, u)
            else if Short(base, u) then MeetsCut(cfg, base, u, t)
            else (base + "-" + t.host)[..54] == (base + "-" + u.host)[..54]
                 && cfg.digest(Addr(t)) == cfg.digest(Addr(u))
  {
    hide Addr;
    var h, g := Hostname(cfg, base, t), Hostname(cfg, base, u);
    assert h == ServiceName(cfg, base, t)[5..] && g == ServiceName(cfg, base, u)[5..];
    assert |cfg.digest(Addr(t))| == 8 && |cfg.digest(Addr(u))| == 8;
    if Short(base, t) && Short(base, u) {
      assert h[|base| + 1..] == t.host && g[|base| + 1..] == u.host;
    } else if Short(base, t) {
      CutMet(cfg, base, t, u);
    } else if Short(base, u) {
      CutMet(cfg, base, u, t);
    } else {
      assert h[..54] == (base + "-" + t.host)[..54] && g[..54] == (base + "-" + u.host)[..54];
      assert h[55..] == cfg.digest(Addr(t)) && g[55..] == cfg.digest(Addr(u));
    }
  }

  lemma CutMet(cfg: Config, base: string, t: EgressTarget, u: EgressTarget)
    requires EightHex(cfg.digest) && Short(base, t) && !Short(base, u)
    ensures Hostname(cfg, base, t) == Hostname(cfg, base, u) <==> MeetsCut(cfg, base, t, u)
  {
    hide Addr;
    var h, g := Hostname(cfg, base, t), Hostname(cfg, base, u);
    assert |cfg.digest(Addr(u))| == 8;
    assert |g| == MAX_HOSTNAME && g[..54] == (base + "-" + u.host)[..54] && g[54..] == "-" + cfg.digest(Addr(u));
    if MeetsCut(cfg, base, t, u) {
      assert h == h[..54] + h[54..] && g == g[..54] + g[54..];
    }
  }

  // ---------- the service spec ----------

  function Env(cfg: Config, hostname: string, tag: string, addr: string, authKey: string): seq<string> {
    var env := [
      ENV_URL + "=" + cfg.loginURL,
      ENV_STATE_DIR + "=" + cfg.stateDir,
      ENV_HOSTNAME + "=" + hostname,
      ENV_TAG + "=" + tag,
      ENV_TARGETS + "=" + addr];
    if authKey != "" then env + [ENV_AUTH_KEY + "=" + authKey] else env
  }

  /** gatewaySpec. */
  function Spec(cfg: Config, eg: EgressSpec, t: EgressTarget, app: string, image: string, authKey: string): ServiceSpec {
    var hostname := Hostname(cfg, eg.hostname, t);
    ServiceSpec(
      ServiceName(cfg, eg.hostname, t),
      map[GATEWAY_FOR := app],
      Some(ContainerSpec(image, ["/tailswarm"], ["gateway"], Env(cfg, hostname, eg.tag, Addr(t), authKey))),
      [NetworkAttachment(eg.network, [t.host])],
      [],
      None)
  }

  // ---------- hashes ----------

  datatype Hash = NoHash | Hash(hostname: string, tag: string, network: string, target: string, image: string)

  datatype SetHash = NoSetHash | SetHash(hostname: string, tag: string, network: string, targets: seq<string>, image: string)

  /** targetGatewayHash. */
  function TargetHash(cfg: Config, eg: EgressSpec, t: EgressTarget, image: string): Hash {
    Hash(Hostname(cfg, eg.hostname, t), eg.tag, eg.network, Addr(t), image)
  }

  /** gatewayHash. */
  function WholeHash(eg: EgressSpec, image: string): SetHash {
    SetHash(eg.hostname, eg.tag, eg.network, Sort(Leq, Addrs(eg.targets)), image)
  }

  lemma StringOrder()
    ensures TotalOrder(Leq)
  {
    forall x, y ensures Leq(x, y) || Leq(y, x) {
      LeqTotal(x, y);
    }
    forall x, y | Leq(x, y) && Leq(y, x) ensures x == y {
      LeqTotal(x, y);
    }
    forall x, y, z | Leq(x, y) && Leq(y, z) ensures Leq(x, z) {
      LeqTransitive(x, y, z);
    }
  }

  /** The whole-set hash sees the targets as a multiset of addresses and nothing else of
      them: declaration order never shows, every other difference does. */
  lemma WholeHashIff(eg: EgressSpec, eg': EgressSpec, image: string, image': string)
    ensures WholeHash(eg, image) == WholeHash(eg', image') <==>
            && eg.hostname == eg'.hostname && eg.tag == eg'.tag && eg.network == eg'.network && image == image'
            && multiset(Addrs(eg.targets)) == multiset(Addrs(eg'.targets))
  {
    StringOrder();
    SortEqualIff(Leq, Addrs(eg.targets), Addrs(eg'.targets));
  }

  /** gatewayHash, with its local slice. */
  method GatewayHash(eg: EgressSpec, image: string) returns (h: SetHash)
    ensures h == WholeHash(eg, image)
  {
    var targets := new string[|eg.targets|];
    for i := 0 to |eg.targets|
      invariant forall j :: 0 <= j < i ==> targets[j] == Addr(eg.targets[j])
    {
      targets[i] := Addr(eg.targets[i]);
    }
    assert targets[..] == Addrs(eg.targets);
    h := SetHash(eg.hostname, eg.tag, eg.network, Sort(Leq, targets[..]), image);
  }

  // ---------- reading a running gateway back ----------

  /** The env list as a map: entries without `=` are skipped, later entries win. */
  function EnvMap(env: seq<string>): map<string, string> {
    if env == [] then map[]
    else
      var m := EnvMap(env[..|env| - 1]);
      match Cut(env[|env| - 1], '=')
      case None => m
      case Some(kv) => m[kv.0 := kv.1]
  }

  /** Entry `i` sets the variable. */
  predicate Sets(env: seq<string>, i: nat, k: string, v: string) {
    i < |env| && '=' !in k && env[i] == k + "=" + v
  }

  /** A variable reads as its last setting. */
  lemma {:induction false} EnvMapReads(env: seq<string>, k: string, v: string)
    ensures k in EnvMap(env) && EnvMap(env)[k] == v <==>
            exists i: nat :: Sets(env, i, k, v) && forall j: nat, u :: i < j ==> !Sets(env, j, k, u)
  {
    if env != [] {
      var n := |env| - 1;
      var init, last := env[..n], env[n];
      EnvMapReads(init, k, v);
      assert forall i: nat, u :: i < n ==> (Sets(init, i, k, u) <==> Sets(env, i, k, u));
      var kv := Cut(last, '=');
      if kv.Some? {
        CutParts(last, '=');
        assert Sets(env, n, kv.value.0, kv.value.1);
      }
      forall u | Sets(env, n, k, u) ensures kv == Some((k, u)) { CutAt(k, u, '='); }
    }
  }

  function Get(m: map<string, string>, k: string): string { if k in m then m[k] else "" }

  /** liveGatewayHash. */
  function LiveHash(spec: ServiceSpec): Hash {
    if spec.container.None? then NoHash
    else
      var env := EnvMap(spec.container.value.env);
      Hash(Get(env, ENV_HOSTNAME), Get(env, ENV_TAG),
           if spec.networks != [] then spec.networks[0].target else "",
           Get(env, ENV_TARGETS), spec.container.value.image)
  }

  method LiveGatewayHash(spec: ServiceSpec) returns (h: Hash)
    ensures h == LiveHash(spec)
  {
    if spec.container.None? {
      return NoHash;
    }
    var list := spec.container.value.env;
    var env: map<string, string> := map[];
    for i := 0 to |list|
      invariant env == EnvMap(list[..i])
    {
      assert list[..i + 1][..i] == list[..i];
      var kv := Cut(list[i], '=');
      if kv.Some? {
        env := env[kv.value.0 := kv.value.1];
      }
    }
    assert list[..|list|] == list;
    var network := "";
    if spec.networks != [] {
      network := spec.networks[0].target;
    }
    h := Hash(Get(env, ENV_HOSTNAME), Get(env, ENV_TAG), network, Get(env, ENV_TARGETS), spec.container.value.image);
  }

  function FirstTarget(env: seq<string>): string {
    if env == [] then ""
    else if HasPrefix(env[0], ENV_TARGETS + "=") then env[0][|ENV_TARGETS| + 1..]
    else FirstTarget(env[1..])
  }

  /** The target is read from the first entry that sets it. */
  lemma {:induction false} FirstTargetReads(env: seq<string>, i: nat, addr: string)
    requires i < |env| && env[i] == ENV_TARGETS + "=" + addr
    requires forall j :: 0 <= j < i ==> !HasPrefix(env[j], ENV_TARGETS + "=")
    ensures FirstTarget(env) == addr
  {
    if i > 0 {
      FirstTargetReads(env[1..], i - 1, addr);
    } else {
      assert HasPrefix(env[0], ENV_TARGETS + "=");
    }
  }

  /** gatewayTargetAddr. */
  function TargetAddr(spec: ServiceSpec): string {
    if spec.container.None? then "" else FirstTarget(spec.container.value.env)
  }

  /** The auth key a gateway will log in with. */
  function AuthKey(spec: ServiceSpec): string {
    if spec.container.None? then "" else Get(EnvMap(spec.container.value.env), ENV_AUTH_KEY)
  }

  /** The app a service is marked for. */
  predicate MarkedFor(spec: ServiceSpec, app: string) {
    GATEWAY_FOR in spec.labels && spec.labels[GATEWAY_FOR] == app
  }

  predicate IsGateway(spec: ServiceSpec) { GATEWAY_FOR in spec.labels }

  datatype EgressConfig = EgressConfig(
    hostname: string, authKey: string, targets: seq<EgressTarget>,
    stateDir: string, loginURL: string, tags: seq<string>)

  /** What RunGateway reads out of its environment before it starts the proxy. */
  function EntrypointConfig(env: map<string, string>): Option<EgressConfig> {
    match Parse(Get(env, ENV_TARGETS))
    case None => None
    case Some(targets) =>
      if targets == [] then None
      else
        var tag := Get(env, ENV_TAG);
        Some(EgressConfig(Get(env, ENV_HOSTNAME), Get(env, ENV_AUTH_KEY), targets,
                          Get(env, ENV_STATE_DIR), Get(env, ENV_URL), if tag != "" then [tag] else []))
  }

  /** What a container of tailswarm's image does: the image holds one program, at
      `/tailswarm` and on no search path, and `gateway` is its first argument for the egress
      side. Anything else starts no gateway. */
  function Boot(c: ContainerSpec): Option<EgressConfig> {
    if c.command == ["/tailswarm"] && c.args != [] && c.args[0] == "gateway" then EntrypointConfig(EnvMap(c.env)) else None
  }

  /** Exactly when a container comes up as a gateway: in gateway mode, with a target list that
      is not blank and in which every entry spells a target. */
  lemma BootIff(c: ContainerSpec)
    ensures var entries := Entries(Get(EnvMap(c.env), ENV_TARGETS));
            Boot(c).Some? <==> c.command == ["/tailswarm"] && c.args != [] && c.args[0] == "gateway" && entries != [] && Wellformed(entries)
  {
    hide Parse;
    hide EnvMap;
    hide Entries;
    hide Wellformed;
    hide FirstOccurrences;
    var raw := Get(EnvMap(c.env), ENV_TARGETS);
    ParseIff(raw);
    if Parse(raw).Some? {
      var r :| FirstOccurrences(r, Entries(raw)) && SpellsAll(r, Parse(raw).value);
      SameEmptiness(r, Entries(raw));
    }
  }

  lemma SameEmptiness(r: seq<string>, es: seq<string>)
    requires FirstOccurrences(r, es)
    ensures r == [] <==> es == []
  {
    assert es != [] ==> es[0] in es;
    assert r != [] ==> r[0] in r;
  }

  /** Docker's DNS gives out the service's address for this name on this network. */
  predicate AnswersTo(spec: ServiceSpec, network: string, name: string) {
    exists i :: 0 <= i < |spec.networks| && spec.networks[i].target == network && name in spec.networks[i].aliases
  }

  /** The service stands in for the target: on the egress network and there alone it answers
      to the target's host and to nothing else, and what it runs dials that target, logged in
      under the app's tag and the given key. */
  ghost predicate StandsFor(spec: ServiceSpec, cfg: Config, eg: EgressSpec, t: EgressTarget, image: string, authKey: string) {
    && (forall n, h :: AnswersTo(spec, n, h) <==> n == eg.network && h == t.host)
    && spec.container.Some? && spec.container.value.image == image
    && var c := Boot(spec.container.value);
       && c.Some? && spec.name == "tsgw-" + c.value.hostname && c.value.hostname == Hostname(cfg, eg.hostname, t)
       && c.value.targets == [t] && c.value.tags == (if eg.tag != "" then [eg.tag] else [])
       && c.value.authKey == authKey && c.value.loginURL == cfg.loginURL && c.value.stateDir == cfg.stateDir
  }

  lemma SpecStandsFor(cfg: Config, eg: EgressSpec, t: EgressTarget, app: string, image: string, authKey: string)
    requires Good(t)
    ensures StandsFor(Spec(cfg, eg, t, app, image, authKey), cfg, eg, t, image, authKey)
  {
    hide EnvMap;
    hide EntrypointConfig;
    hide Hostname;
    SpecFaithful(cfg, eg, t, app, image, authKey);
    var spec := Spec(cfg, eg, t, app, image, authKey);
    assert spec.networks[0] == NetworkAttachment(eg.network, [t.host]);
  }

  // ---------- the encoding is faithful ----------

  lemma EnvMapSnoc(env: seq<string>, k: string, v: string)
    requires '=' !in k
    ensures EnvMap(env + [k + "=" + v]) == EnvMap(env)[k := v]
  {
    var e := k + "=" + v;
    assert (env + [e])[..|env|] == env;
    CutAt(k, v, '=');
    assert e == k + ['='] + v;
  }

  lemma EnvMapNil()
    ensures EnvMap([]) == map[]
  {
  }

  lemma EnvMapBuilt(cfg: Config, hostname: string, tag: string, addr: string, authKey: string)
    ensures var m := EnvMap(Env(cfg, hostname, tag, addr, authKey));
            && Get(m, ENV_URL) == cfg.loginURL && Get(m, ENV_STATE_DIR) == cfg.stateDir
            && Get(m, ENV_HOSTNAME) == hostname && Get(m, ENV_TAG) == tag
            && Get(m, ENV_TARGETS) == addr && Get(m, ENV_AUTH_KEY) == authKey
  {
    hide Cut;
    hide EnvMap;
    var e1 := [ENV_URL + "=" + cfg.loginURL];
    var e2 := e1 + [ENV_STATE_DIR + "=" + cfg.stateDir];
    var e3 := e2 + [ENV_HOSTNAME + "=" + hostname];
    var e4 := e3 + [ENV_TAG + "=" + tag];
    var e5 := e4 + [ENV_TARGETS + "=" + addr];
    EnvKeysDistinct();
    EnvMapNil();
    assert [] + e1 == e1;
    EnvMapSnoc([], ENV_URL, cfg.loginURL);
    EnvMapSnoc(e1, ENV_STATE_DIR, cfg.stateDir);
    EnvMapSnoc(e2, ENV_HOSTNAME, hostname);
    EnvMapSnoc(e3, ENV_TAG, tag);
    EnvMapSnoc(e4, ENV_TARGETS, addr);
    EnvMapSnoc(e5, ENV_AUTH_KEY, authKey);
    assert Env(cfg, hostname, tag, addr, authKey) ==
           if authKey != "" then e5 + [ENV_AUTH_KEY + "=" + authKey] else e5;
  }

  lemma EnvKeysDistinct()
    ensures '=' !in ENV_URL && '=' !in ENV_STATE_DIR && '=' !in ENV_HOSTNAME
    ensures '=' !in ENV_TAG && '=' !in ENV_TARGETS && '=' !in ENV_AUTH_KEY
    ensures |ENV_URL| == 23 && |ENV_TAG| == 21 && |ENV_STATE_DIR| == |ENV_TARGETS| == 25
    ensures |ENV_HOSTNAME| == |ENV_AUTH_KEY| == 26
    ensures ENV_STATE_DIR[10] != ENV_TARGETS[10] && ENV_HOSTNAME[18] != ENV_AUTH_KEY[18]
    ensures ENV_TARGETS[10] != ENV_URL[10] && ENV_TARGETS[18] != ENV_HOSTNAME[18] && ENV_TARGETS[20] != ENV_TAG[20]
  {
  }

  lemma FirstTargetBuilt(cfg: Config, hostname: string, tag: string, addr: string, authKey: string)
    ensures FirstTarget(Env(cfg, hostname, tag, addr, authKey)) == addr
  {
    EnvKeysDistinct();
    var env := Env(cfg, hostname, tag, addr, authKey);
    var prefix := ENV_TARGETS + "=";
    assert env[0][10] == ENV_URL[10] && prefix[10] == ENV_TARGETS[10];
    assert env[1][10] == ENV_STATE_DIR[10];
    assert env[2][18] == ENV_HOSTNAME[18] && prefix[18] == ENV_TARGETS[18];
    assert env[3][20] == ENV_TAG[20] && prefix[20] == ENV_TARGETS[20];
    assert env[4] == prefix + addr;
    assert FirstTarget(env[4..]) == addr;
    assert env[3..][1..] == env[4..] && env[2..][1..] == env[3..] && env[1..][1..] == env[2..];
    assert FirstTarget(env[3..]) == addr;
    assert FirstTarget(env[2..]) == addr;
    assert FirstTarget(env[1..]) == addr;
  }

  /** For every egress spec, parsed target, image and key, the reconciler reads back from
      the built service exactly what it hashed, and the gateway process rebuilds exactly
      its one target, identity and key. */
  lemma SpecFaithful(cfg: Config, eg: EgressSpec, t: EgressTarget, app: string, image: string, authKey: string)
    ensures var spec := Spec(cfg, eg, t, app, image, authKey);
            && LiveHash(spec) == TargetHash(cfg, eg, t, image)
            && TargetAddr(spec) == Addr(t)
            && MarkedFor(spec, app)
            && spec.labels.Keys == {GATEWAY_FOR}
            && AuthKey(spec) == authKey
    ensures Good(t) ==>
              EntrypointConfig(EnvMap(Spec(cfg, eg, t, app, image, authKey).container.value.env)) ==
              Some(EgressConfig(Hostname(cfg, eg.hostname, t), authKey, [t], cfg.stateDir, cfg.loginURL,
                                if eg.tag != "" then [eg.tag] else []))
  {
    hide EnvMap;
    hide FirstTarget;
    hide Parse;
    var hostname := Hostname(cfg, eg.hostname, t);
    EnvMapBuilt(cfg, hostname, eg.tag, Addr(t), authKey);
    FirstTargetBuilt(cfg, hostname, eg.tag, Addr(t), authKey);
    if Good(t) {
      assert Addrs([t]) == [Addr(t)] && Encode([t]) == Addr(t);
      ParseEncodeDistinct([t]);
    }
  }

  /** The hash leaves out the daemon's own settings, so a gateway built under another
      login URL or state directory looks up to date. */
  lemma SettingsDriftIsInvisible(cfg: Config, url: string, dir: string, eg: EgressSpec, t: EgressTarget,
                                 app: string, image: string, authKey: string)
    ensures LiveHash(Spec(cfg.(loginURL := url, stateDir := dir), eg, t, app, image, authKey)) ==
            TargetHash(cfg, eg, t, image)
    ensures Spec(cfg.(loginURL := url, stateDir := dir), eg, t, app, image, authKey) == Spec(cfg, eg, t, app, image, authKey) <==>
            url == cfg.loginURL && dir == cfg.stateDir
  {
    var cfg' := cfg.(loginURL := url, stateDir := dir);
    SpecFaithful(cfg', eg, t, app, image, authKey);
    var hostname := Hostname(cfg, eg.hostname, t);
    EnvMapBuilt(cfg, hostname, eg.tag, Addr(t), authKey);
    EnvMapBuilt(cfg', hostname, eg.tag, Addr(t), authKey);
  }
}
