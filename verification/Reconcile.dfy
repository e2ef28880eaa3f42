/** The ingress machine and the top level of reconciler.go. */
module Reconcile {
  import opened Text
  import opened Sorting
  import opened Gateway
  import opened Labels
  import opened World
  import opened Egress

  /** proxyConfigFor; the auth key is no part of it. */
  function ProxyConfigFor(tgt: Target, cfg: Config): ProxyConfig {
    ProxyConfig(tgt.hostname, tgt.serviceName, tgt.ports, cfg.stateDir, cfg.loginURL, [tgt.tag])
  }

  predicate PortLeq(a: nat, b: nat) { a <= b }

  /** proxyHash. */
  function HashOf(c: ProxyConfig): ProxyHash {
    ProxyHash(c.hostname, c.target, Sort(PortLeq, c.ports), c.stateDir, c.loginURL, Sort(Leq, c.tags))
  }

  /** `close` and `expire` report whether the call returned without error. */
  datatype IngressAnswers = IngressAnswers(wait: bool, key: Option<Key>, start: Option<nat>, close: bool, expire: bool)

  /** teardownIngress. */
  function TeardownIngress(w: World, id: string, a: IngressAnswers): Step {
    var prev := EntryOf(w, id);
    if prev.proxy.None? && prev.preAuthKey == "" then Step(w, true)
    else
      var w1 := if prev.proxy.Some? then CloseProxy(w, prev.proxy.value) else w;
      var closeOk := prev.proxy.None? || a.close;
      if prev.preAuthKey != "" && !a.wait then Step(w1, false)
      else
        var w2 := Expire(w1, prev.preAuthKey);
        var expireOk := prev.preAuthKey == "" || a.expire;
        var next := prev.(proxy := None, specHash := NoProxyHash, preAuthKey := "");
        Step(if prev.gateways == [] then Delete(w2, id) else Put(w2, id, next), closeOk && expireOk)
  }

  /** Closing and expiring what a rotation replaced. */
  function Retire(w: World, prev: Entry): World {
    if prev.proxy.None? then w else Expire(CloseProxy(w, prev.proxy.value), prev.preAuthKey)
  }

  /** A new proxy in place of `prev`'s: key, start, store, and only then the old one's end. */
  function Rotate(w: World, id: string, prev: Entry, config: ProxyConfig, a: IngressAnswers): Step {
    var (w1, key) := Mint(w, a.key);
    if key.None? then Step(w1, false)
    else
      var (w2, proxy) := StartProxy(w1, Launch(config, key.value.secret), a.start);
      if proxy.None? then Step(Expire(w2, key.value.id), false)
      else
        var next := prev.(proxy := proxy, specHash := HashOf(config), preAuthKey := key.value.id);
        Step(Retire(Put(w2, id, next), prev), true)
  }

  predicate FreshAnswer(w: World, key: Option<Key>) { key.Some? && key.value.id != "" && key.value.id !in w.minted }

  /** The key can be minted and the proxy started. */
  predicate Rotates(w: World, a: IngressAnswers) {
    FreshAnswer(w, a.key) && a.start.Some? && a.start.value !in w.started
  }

  /** What a rotation comes to: all of it, with the old proxy closed once and its key given
      back, or nothing but a key minted and given back. */
  lemma RotateExact(w: World, id: string, prev: Entry, config: ProxyConfig, a: IngressAnswers)
    ensures var r := Rotate(w, id, prev, config, a);
            && (r.ok <==> Rotates(w, a))
            && (!r.ok ==>
                  var tried := if FreshAnswer(w, a.key) then {a.key.value.id} else {};
                  r.w == w.(minted := w.minted + tried, expired := w.expired + tried))
            && (r.ok ==>
                  r.w == w.(store := w.store[id := prev.(proxy := a.start, specHash := HashOf(config), preAuthKey := a.key.value.id)],
                            minted := w.minted + {a.key.value.id},
                            expired := if prev.proxy.Some? && prev.preAuthKey != "" then w.expired + {prev.preAuthKey} else w.expired,
                            started := w.started + {a.start.value},
                            closed := if prev.proxy.Some? then w.closed + multiset{prev.proxy.value} else w.closed,
                            launched := w.launched[a.start.value := Launch(config, a.key.value.secret)]))
  {
    hide HashOf;
    assert w.minted + {} == w.minted && w.expired + {} == w.expired;
  }

  /** reconcileIngress. */
  function IngressPass(w: World, id: string, tgt: Target, cfg: Config, a: IngressAnswers): Step {
    if !tgt.ingress then TeardownIngress(w, id, a)
    else
      var config := ProxyConfigFor(tgt, cfg);
      var prev := EntryOf(w, id);
      if prev.specHash == HashOf(config) && prev.proxy.Some? then Step(Put(w, id, prev), true)
      else if !a.wait then Step(w, false)
      else Rotate(w, id, prev, config, a)
  }

  /** Everything one Reconcile call hears from outside. */
  datatype Script = Script(inspect: bool, networks: Option<seq<Network>>, ingress: IngressAnswers, egress: Answers)

  datatype Daemon = Daemon(rules: Rules, cfg: Config, image: string)

  /** teardown. */
  function Teardown(w: World, id: string, s: Script): Step {
    var ing := TeardownIngress(w, id, s.ingress);
    var egr := TeardownEgress(ing.w, id, s.egress.remove);
    Step(Delete(egr.w, id), ing.ok && egr.ok)
  }

  function EgressStep(w: World, d: Daemon, id: string, tgt: Target, ans: Answers): Step {
    if tgt.egress.None? then TeardownEgress(w, id, ans.remove)
    else EgressPass(w, Job(d.cfg, id, tgt.egress.value, d.image), ans)
  }

  /** Reconcile. */
  function ReconcileService(w: World, d: Daemon, id: string, s: Script): Step {
    if !s.inspect then Step(w, false)
    else if id !in w.services then Teardown(w, id, s)
    else if IsGateway(w.services[id].spec) then Step(w, true)
    else if s.networks.None? then Step(w, false)
    else match ParseLabels(d.rules, w.services[id].spec, s.networks.value)
      case Malformed(_) => Step(Teardown(w, id, s).w, false)
      case Disabled => Teardown(w, id, s)
      case Enabled(tgt) =>
        var ing := IngressPass(w, id, tgt, d.cfg, s.ingress);
        var egr := EgressStep(ing.w, d, id, tgt, s.egress);
        Step(egr.w, ing.ok && egr.ok)
  }

  /** CloseAll, over a snapshot of the store in any order: proxies are closed, keys are
      left to lapse, gateways keep running. */
  function CloseAll(w: World, todo: set<string>, pick: Picker): World
    decreases todo
  {
    if todo == {} then w
    else
      var id := pick(todo);
      var e := EntryOf(w, id);
      var w1 := if e.proxy.Some? then CloseProxy(w, e.proxy.value) else w;
      CloseAll(Delete(w1, id), todo - {id}, pick)
  }

  // ---------- runs ----------

  /** What can happen to the daemon: a reconcile, any change to the cluster's services, or
      shutdown. */
  datatype Event =
    | Reconciled(id: string, script: Script)
    | SwarmChanged(services: map<string, Service>, ids: set<string>)
    | Shutdown(pick: Picker)

  function Apply(w: World, d: Daemon, ev: Event): World {
    match ev
    case Reconciled(id, s) => ReconcileService(w, d, id, s).w
    case SwarmChanged(services, ids) => w.(services := services, ids := ids)
    case Shutdown(pick) => CloseAll(w, w.store.Keys, pick)
  }

  function Run(w: World, d: Daemon, events: seq<Event>): World
    decreases events
  {
    if events == [] then w else Run(Apply(w, d, events[0]), d, events[1..])
  }
}
