/** The life of an ingress proxy: started, held by one store entry, closed once. */
module Proxies {
  import opened Text
  import opened Sorting
  import opened Gateway
  import opened Labels
  import opened World
  import opened Egress
  import opened Reconcile
  import opened EgressTheorems
  import opened Ledger
  import opened Conservation

  // ---------- what makes a proxy rotate ----------

  lemma PortOrder()
    ensures TotalOrder(PortLeq)
  {
  }

  /** proxyHash sees ports and tags as multisets, and tells every other difference apart. */
  lemma HashOfIff(a: ProxyConfig, b: ProxyConfig)
    ensures HashOf(a) == HashOf(b) <==>
            && a.hostname == b.hostname && a.target == b.target && a.stateDir == b.stateDir && a.loginURL == b.loginURL
            && multiset(a.ports) == multiset(b.ports) && multiset(a.tags) == multiset(b.tags)
  {
    PortOrder();
    StringOrder();
    SortEqualIff(PortLeq, a.ports, b.ports);
    SortEqualIff(Leq, a.tags, b.tags);
  }

  /** A proxy in place is left alone exactly by a target that asks for the same proxy up to
      the order of its ports; any other target has a key minted for it. */
  lemma LeftAloneIff(w: World, id: string, was: Target, tgt: Target, cfg: Config, a: IngressAnswers)
    requires EntryOf(w, id).proxy.Some? && EntryOf(w, id).specHash == HashOf(ProxyConfigFor(was, cfg))
    requires tgt.ingress && a.wait
    requires a.key.Some? && a.key.value.id != "" && a.key.value.id !in w.minted
    ensures var w' := IngressPass(w, id, tgt, cfg, a).w;
            w' == w <==>
            && tgt.hostname == was.hostname && tgt.serviceName == was.serviceName && tgt.tag == was.tag
            && multiset(tgt.ports) == multiset(was.ports)
  {
    hide HashOf;
    HashOfIff(ProxyConfigFor(was, cfg), ProxyConfigFor(tgt, cfg));
    if tgt.tag != was.tag {
      assert tgt.tag in multiset([tgt.tag]) && tgt.tag !in multiset([was.tag]);
    }
    assert Put(w, id, EntryOf(w, id)) == w;
  }

  /** A pass that has just succeeded has nothing left to do, for any order of the ports. */
  lemma RepeatIsIdle(w: World, id: string, tgt: Target, ports: seq<nat>, cfg: Config, a: IngressAnswers, b: IngressAnswers)
    requires tgt.ingress && IngressPass(w, id, tgt, cfg, a).ok && multiset(ports) == multiset(tgt.ports)
    ensures var w1 := IngressPass(w, id, tgt, cfg, a).w;
            IngressPass(w1, id, tgt.(ports := ports), cfg, b) == Step(w1, true)
  {
    hide HashOf;
    hide Rotate;
    RotateExact(w, id, EntryOf(w, id), ProxyConfigFor(tgt, cfg), a);
    HashOfIff(ProxyConfigFor(tgt, cfg), ProxyConfigFor(tgt.(ports := ports), cfg));
    var w1 := IngressPass(w, id, tgt, cfg, a).w;
    assert Put(w1, id, EntryOf(w1, id)) == w1;
  }

  // ---------- the invariant ----------

  function Open(w: World): set<nat> { set p | p in w.started && w.closed[p] == 0 }

  function InStore(w: World): set<nat> { set id | id in w.store && w.store[id].proxy.Some? :: w.store[id].proxy.value }

  /** The started but not closed proxies are exactly those the store holds, each held once;
      none was closed twice. */
  ghost predicate ProxyInv(w: World) {
    && Open(w) == InStore(w)
    && (forall p :: p in w.closed ==> p in w.started && w.closed[p] == 1)
    && (forall id, id' :: id in w.store && id' in w.store && id != id' && w.store[id].proxy.Some? ==>
          w.store[id].proxy != w.store[id'].proxy)
  }

  function AsMultiset(p: Option<nat>): multiset<nat> { if p.None? then multiset{} else multiset{p.value} }

  /** A step on one entry: it keeps its proxy, or swaps it for a new one or none and closes it. */
  ghost predicate ProxyStep(w: World, w': World, id: string) {
    var prev, next := EntryOf(w, id).proxy, EntryOf(w', id).proxy;
    && w'.store - {id} == w.store - {id}
    && (|| (next == prev && w'.started == w.started && w'.closed == w.closed)
        || (next.None? && w'.started == w.started && w'.closed == w.closed + AsMultiset(prev))
        || (next.Some? && next.value !in w.started && w'.started == w.started + {next.value} && w'.closed == w.closed + AsMultiset(prev)))
  }

  lemma OtherEntries(w: World, w': World, id: string)
    requires w'.store - {id} == w.store - {id}
    ensures forall i :: i != id ==> (i in w.store <==> i in w'.store) && (i in w.store ==> w'.store[i] == w.store[i])
  {
    forall i | i != id ensures (i in w.store <==> i in w'.store) && (i in w.store ==> w'.store[i] == w.store[i]) {
      assert i in w.store <==> i in w.store - {id};
      assert i in w'.store <==> i in w'.store - {id};
      assert i in w.store ==> (w.store - {id})[i] == w.store[i] && (w'.store - {id})[i] == w'.store[i];
    }
  }

  lemma Stored(w: World, id: string)
    ensures id in w.store && w.store[id].proxy.Some? ==> w.store[id].proxy.value in InStore(w)
  {
  }

  lemma OpenIsStored(w: World, w': World, id: string, p: nat)
    requires ProxyInv(w) && ProxyStep(w, w', id) && p in Open(w')
    ensures p in InStore(w')
  {
    OtherEntries(w, w', id);
    if EntryOf(w', id).proxy == Some(p) {
      Stored(w', id);
    } else {
      assert p in Open(w);
      var i :| i in w.store && w.store[i].proxy == Some(p);
      Stored(w', i);
    }
  }

  lemma StoredIsOpen(w: World, w': World, id: string, p: nat)
    requires ProxyInv(w) && ProxyStep(w, w', id) && p in InStore(w')
    ensures p in Open(w')
  {
    OtherEntries(w, w', id);
    var i :| i in w'.store && w'.store[i].proxy == Some(p);
    Stored(w, i);
    Stored(w, id);
    assert p in InStore(w) ==> p in Open(w);
  }

  lemma ProxyStepKeeps(w: World, w': World, id: string)
    requires ProxyInv(w) && ProxyStep(w, w', id)
    ensures ProxyInv(w')
  {
    forall p ensures p in Open(w') <==> p in InStore(w') {
      if p in Open(w') {
        OpenIsStored(w, w', id, p);
      }
      if p in InStore(w') {
        StoredIsOpen(w, w', id, p);
      }
    }
    OtherEntries(w, w', id);
    forall i ensures i in w.store && w.store[i].proxy.Some? ==> w.store[i].proxy.value in Open(w) { Stored(w, i); }
  }

  // ---------- the steps ----------

  /** The ingress half of an entry. */
  function InOnly(e: Entry): Entry { e.(gateways := [], gatewayHash := NoSetHash) }

  predicate Tidy(e: Entry) { e.proxy.None? ==> InOnly(e) == ZERO_ENTRY }

  /** Nothing an egress step does shows in the ingress half. */
  ghost predicate ProxiesKept(w: World, w': World, id: string) {
    && w'.store - {id} == w.store - {id} && InOnly(EntryOf(w', id)) == InOnly(EntryOf(w, id))
    && w'.started == w.started && w'.closed == w.closed && w'.launched == w.launched
  }

  lemma EgressPassKeepsProxies(w: World, job: Job, ans: Answers)
    ensures ProxiesKept(w, EgressPass(w, job, ans).w, job.app)
  {
    hide Tracked;
    hide FastGate;
    hide EgressPass;
    hide SlowPath;
    hide RemoveLoop;
    hide PutLoop;
    hide SortedGateways;
    hide WholeHash;
    EgressPassCases(w, job, ans);
    SlowPathIs(w, job, ans);
    var tracked := Tracked(w, job.app, ans.pick);
    RemoveLoopStore(Pass(w, tracked, true), Convergence.Wanted(job).Keys, tracked.Keys, ans);
    PutLoopStore(Pruned(w, job, ans), job, Convergence.Wanted(job), Convergence.Wanted(job).Keys, ans);
  }

  lemma TeardownEgressKeepsProxies(w: World, app: string, remove: string -> RemoveAnswers)
    requires Tidy(EntryOf(w, app))
    ensures ProxiesKept(w, TeardownEgress(w, app, remove).w, app)
  {
    hide RemoveAll;
    RemoveAllStore(w, EntryOf(w, app).gateways, remove);
  }

  lemma IngressKeepsTidy(w: World, id: string, tgt: Target, cfg: Config, a: IngressAnswers)
    requires Tidy(EntryOf(w, id))
    ensures Tidy(EntryOf(IngressPass(w, id, tgt, cfg, a).w, id))
  {
    hide HashOf;
    hide TeardownIngress;
    IngressTornTidy(w, id, a);
  }

  lemma IngressTornTidy(w: World, id: string, a: IngressAnswers)
    requires Tidy(EntryOf(w, id))
    ensures Tidy(EntryOf(TeardownIngress(w, id, a).w, id))
  {
  }

  lemma ShapeTidy(e: Entry)
    requires Shape(e)
    ensures Tidy(e)
  {
  }

  /** The branch that strands a closed proxy in the store: the limiter fails in
      teardownIngress and no deletion of the entry follows. */
  predicate StrandsProxy(w: World, d: Daemon, id: string, s: Script) {
    && s.inspect && id in w.services && !IsGateway(w.services[id].spec) && s.networks.Some?
    && var o := ParseLabels(d.rules, w.services[id].spec, s.networks.value);
       o.Enabled? && !o.target.ingress && EntryOf(w, id).proxy.Some? && !s.ingress.wait
  }

  lemma IngressTeardownExact(w: World, id: string, a: IngressAnswers)
    ensures var e := EntryOf(w, id);
            var s := TeardownIngress(w, id, a);
            && s.w.services == w.services && s.w.minted == w.minted && s.w.ids == w.ids && s.w.started == w.started && s.w.launched == w.launched
            && s.w.expired == w.expired + (if a.wait then IngressKey(e) else {})
            && s.w.closed == w.closed + AsMultiset(e.proxy)
            && s.w.store - {id} == w.store - {id} && EntryOf(s.w, id).gateways == e.gateways
            && (s.ok <==> (e.proxy.None? || a.close) && (e.preAuthKey == "" || (a.wait && a.expire)))
  {
    hide TeardownIngress;
    var e := EntryOf(w, id);
    assert w.expired + {} == w.expired && w.closed + multiset{} == w.closed;
    if e.preAuthKey != "" && !a.wait {
      TeardownStops(w, id, a);
    } else if e.proxy.Some? || e.preAuthKey != "" {
      TeardownEnds(w, id, a);
      Closes(w, e.proxy);
      EndedEntry(w, id);
    } else {
      assert TeardownIngress(w, id, a) == Step(w, true) by { TeardownIdle(w, id, a); }
    }
  }

  /** The world once the entry's proxy, if any, is closed. */
  function ClosedFor(w: World, proxy: Option<nat>): World {
    if proxy.Some? then CloseProxy(w, proxy.value) else w
  }

  lemma Closes(w: World, proxy: Option<nat>)
    ensures ClosedFor(w, proxy) == w.(closed := w.closed + AsMultiset(proxy))
  {
    assert w.closed + multiset{} == w.closed;
  }

  lemma TeardownIdle(w: World, id: string, a: IngressAnswers)
    requires EntryOf(w, id).proxy.None? && EntryOf(w, id).preAuthKey == ""
    ensures TeardownIngress(w, id, a) == Step(w, true)
  {
  }

  /** The early return on the limiter: the proxy is closed, the entry stays. */
  lemma TeardownStops(w: World, id: string, a: IngressAnswers)
    requires EntryOf(w, id).preAuthKey != "" && !a.wait
    ensures TeardownIngress(w, id, a) == Step(w.(closed := w.closed + AsMultiset(EntryOf(w, id).proxy)), false)
  {
    Closes(w, EntryOf(w, id).proxy);
  }

  function Ended(w: World, id: string): map<string, Entry> {
    var e := EntryOf(w, id);
    if e.gateways == [] then w.store - {id} else w.store[id := e.(proxy := None, specHash := NoProxyHash, preAuthKey := "")]
  }

  lemma EndedEntry(w: World, id: string)
    ensures Ended(w, id) - {id} == w.store - {id}
    ensures id in Ended(w, id) ==> Ended(w, id)[id].gateways == EntryOf(w, id).gateways
    ensures id !in Ended(w, id) ==> EntryOf(w, id).gateways == []
  {
  }

  lemma TeardownEnds(w: World, id: string, a: IngressAnswers)
    requires var e := EntryOf(w, id); (e.proxy.Some? || e.preAuthKey != "") && (e.preAuthKey == "" || a.wait)
    ensures var e := EntryOf(w, id);
            TeardownIngress(w, id, a) ==
            Step(ClosedFor(w, e.proxy).(expired := w.expired + IngressKey(e), store := Ended(w, id)),
                 (e.proxy.None? || a.close) && (e.preAuthKey == "" || a.expire))
  {
    assert w.expired + {} == w.expired;
  }

  lemma TeardownIngressProxyStep(w: World, id: string, a: IngressAnswers)
    requires Shape(EntryOf(w, id)) && (EntryOf(w, id).proxy.None? || a.wait)
    ensures ProxyStep(w, TeardownIngress(w, id, a).w, id)
  {
    hide GatewayKeys;
    var w' := TeardownIngress(w, id, a).w;
    assert w'.store - {id} == w.store - {id};
    assert w.closed + multiset{} == w.closed;
  }

  lemma IngressProxyStep(w: World, id: string, tgt: Target, cfg: Config, a: IngressAnswers)
    requires Shape(EntryOf(w, id)) && (tgt.ingress || EntryOf(w, id).proxy.None? || a.wait)
    ensures ProxyStep(w, IngressPass(w, id, tgt, cfg, a).w, id)
  {
    hide HashOf;
    hide Shape;
    hide TeardownIngress;
    hide Rotate;
    if !tgt.ingress {
      TeardownIngressProxyStep(w, id, a);
    } else {
      hide ProxyStep;
      NoStep(w, id);
      RotateStep(w, id, ProxyConfigFor(tgt, cfg), a);
      assert id in w.store ==> Put(w, id, EntryOf(w, id)) == w;
    }
  }

  lemma RotateStep(w: World, id: string, config: ProxyConfig, a: IngressAnswers)
    ensures ProxyStep(w, Rotate(w, id, EntryOf(w, id), config, a).w, id)
  {
    hide HashOf;
    hide Rotate;
    RotateExact(w, id, EntryOf(w, id), config, a);
    var w' := Rotate(w, id, EntryOf(w, id), config, a).w;
    assert w'.store - {id} == w.store - {id};
    assert w.closed + multiset{} == w.closed;
  }

  lemma TeardownProxyStep(w: World, id: string, s: Script)
    requires Shape(EntryOf(w, id))
    ensures ProxyStep(w, Teardown(w, id, s).w, id)
    ensures EntryOf(Teardown(w, id, s).w, id) == ZERO_ENTRY
  {
    hide TeardownEgress;
    hide TeardownIngress;
    hide GatewayKeys;
    var ing := TeardownIngress(w, id, s.ingress);
    IngressTeardownExact(w, id, s.ingress);
    IngressTornTidy(w, id, s.ingress);
    TeardownEgressKeepsProxies(ing.w, id, s.egress.remove);
  }

  lemma ProxyStepThenKept(w: World, w1: World, w2: World, id: string)
    requires ProxyStep(w, w1, id) && ProxiesKept(w1, w2, id)
    ensures ProxyStep(w, w2, id)
  {
  }

  lemma ReconcileProxyStep(w: World, d: Daemon, id: string, s: Script)
    requires Shape(EntryOf(w, id)) && !StrandsProxy(w, d, id, s)
    ensures ProxyStep(w, ReconcileService(w, d, id, s).w, id)
  {
    hide ParseLabels;
    hide IngressPass;
    hide EgressPass;
    hide TeardownEgress;
    hide Teardown;
    hide Shape;
    hide ProxyStep;
    hide ProxiesKept;
    hide IsGateway;
    TeardownProxyStep(w, id, s);
    NoStep(w, id);
    if s.inspect && id in w.services && !IsGateway(w.services[id].spec) && s.networks.Some? {
      var o := ParseLabels(d.rules, w.services[id].spec, s.networks.value);
      if o.Enabled? {
        IngressProxyStep(w, id, o.target, d.cfg, s.ingress);
        var w1 := IngressPass(w, id, o.target, d.cfg, s.ingress).w;
        ShapeTidy(EntryOf(w, id));
        IngressKeepsTidy(w, id, o.target, d.cfg, s.ingress);
        EgressKeepsProxies(w1, d, id, o.target, s.egress);
        ProxyStepThenKept(w, w1, EgressStep(w1, d, id, o.target, s.egress).w, id);
      }
    }
  }

  lemma NoStep(w: World, id: string)
    ensures ProxyStep(w, w, id)
  {
  }

  lemma EgressKeepsProxies(w: World, d: Daemon, id: string, tgt: Target, ans: Answers)
    requires Tidy(EntryOf(w, id))
    ensures ProxiesKept(w, EgressStep(w, d, id, tgt, ans).w, id)
  {
    hide EgressPass;
    hide TeardownEgress;
    hide ProxiesKept;
    if tgt.egress.None? {
      TeardownEgressKeepsProxies(w, id, ans.remove);
    } else {
      EgressPassKeepsProxies(w, Job(d.cfg, id, tgt.egress.value, d.image), ans);
    }
  }

  /** In the stranding branch the store keeps a proxy that has been closed. */
  lemma StrandedProxy(w: World, d: Daemon, id: string, s: Script)
    requires Shape(EntryOf(w, id)) && StrandsProxy(w, d, id, s)
    ensures var w' := ReconcileService(w, d, id, s).w;
            && InOnly(EntryOf(w', id)) == InOnly(EntryOf(w, id)) && w'.store - {id} == w.store - {id}
            && w'.closed == w.closed + multiset{EntryOf(w, id).proxy.value}
  {
    hide ParseLabels;
    hide EgressPass;
    hide TeardownEgress;
    hide Teardown;
    hide GatewayKeys;
    hide IsGateway;
    var tgt := ParseLabels(d.rules, w.services[id].spec, s.networks.value).target;
    var w1 := IngressPass(w, id, tgt, d.cfg, s.ingress).w;
    IngressKeepsTidy(w, id, tgt, d.cfg, s.ingress);
    EgressKeepsProxies(w1, d, id, tgt, s.egress);
  }

  /** The proxy invariant survives a pass exactly when that branch is not taken. */
  lemma ProxyInvKeptIff(w: World, d: Daemon, id: string, s: Script)
    requires ProxyInv(w) && Shape(EntryOf(w, id))
    ensures ProxyInv(ReconcileService(w, d, id, s).w) <==> !StrandsProxy(w, d, id, s)
  {
    hide ReconcileService;
    hide Shape;
    hide StrandsProxy;
    hide ProxyStep;
    if StrandsProxy(w, d, id, s) {
      StrandedProxy(w, d, id, s);
      StrandsHolds(w, d, id, s);
      var w' := ReconcileService(w, d, id, s).w;
      var p := EntryOf(w, id).proxy.value;
      assert InOnly(EntryOf(w', id)).proxy == Some(p);
      assert id in w'.store && p in InStore(w') && p !in Open(w');
    } else {
      ReconcileProxyStep(w, d, id, s);
      ProxyStepKeeps(w, ReconcileService(w, d, id, s).w, id);
    }
  }

  /** If the labels ask for the proxy again, it passes for up to date and is left alone,
      closed as it is. */
  lemma StrandedIsLeftAlone(w: World, d: Daemon, id: string, s: Script, tgt: Target, a: IngressAnswers)
    requires Shape(EntryOf(w, id)) && StrandsProxy(w, d, id, s)
    requires tgt.ingress && EntryOf(w, id).specHash == HashOf(ProxyConfigFor(tgt, d.cfg))
    ensures var w' := ReconcileService(w, d, id, s).w;
            && IngressPass(w', id, tgt, d.cfg, a) == Step(w', true)
            && EntryOf(w', id).proxy.Some? && EntryOf(w', id).proxy.value !in Open(w')
  {
    hide ReconcileService;
    hide Shape;
    hide StrandsProxy;
    hide HashOf;
    StrandedProxy(w, d, id, s);
    StrandsHolds(w, d, id, s);
    var w' := ReconcileService(w, d, id, s).w;
    assert InOnly(EntryOf(w', id)).proxy == EntryOf(w, id).proxy;
    assert InOnly(EntryOf(w', id)).specHash == EntryOf(w, id).specHash;
    assert Put(w', id, EntryOf(w', id)) == w';
  }

  lemma StrandsHolds(w: World, d: Daemon, id: string, s: Script)
    requires StrandsProxy(w, d, id, s)
    ensures EntryOf(w, id).proxy.Some?
  {
  }

  // ---------- shutdown and runs ----------

  function Holders(store: map<string, Entry>, todo: set<string>, p: nat): set<string> {
    set id | id in todo && id in store && store[id].proxy == Some(p)
  }

  lemma HoldersWithout(store: map<string, Entry>, id: string, todo: set<string>, p: nat)
    requires id in todo
    ensures var holds := id in store && store[id].proxy == Some(p);
            |Holders(store, todo, p)| == |Holders(store - {id}, todo - {id}, p)| + if holds then 1 else 0
  {
    var all, rest := Holders(store, todo, p), Holders(store - {id}, todo - {id}, p);
    assert forall i :: i in rest <==> i in all && i != id;
    if id in all {
      assert all == rest + {id};
    } else {
      assert all == rest;
    }
  }

  lemma CloseOneCounts(w: World, id: string, p: nat)
    ensures var holds := id in w.store && w.store[id].proxy == Some(p);
            CloseOne(w, id).closed[p] == w.closed[p] + if holds then 1 else 0
  {
  }

  /** CloseAll calls Close once per entry that holds the proxy, in any order. */
  lemma {:induction false} CloseAllCloses(w: World, todo: set<string>, pick: Picker, p: nat)
    ensures CloseAll(w, todo, pick).closed[p] == w.closed[p] + |Holders(w.store, todo, p)|
    decreases todo
  {
    if todo == {} {
      assert Holders(w.store, todo, p) == {};
    } else {
      var id := pick(todo);
      var w1 := CloseOne(w, id);
      assert CloseAll(w, todo, pick) == CloseAll(w1, todo - {id}, pick);
      hide *;
      HoldersWithout(w.store, id, todo, p);
      CloseOneCounts(w, id, p);
      CloseOneDeletes(w, id);
      CloseAllCloses(w1, todo - {id}, pick, p);
    }
  }

  /** CloseAll on quiesced workers leaves no proxy open and closes none twice. */
  lemma CloseAllLeavesNoneOpen(w: World, pick: Picker)
    requires ProxyInv(w)
    ensures var w' := CloseAll(w, w.store.Keys, pick);
            Open(w') == {} && w'.store == map[] && ProxyInv(w')
  {
    hide CloseAll;
    var w' := CloseAll(w, w.store.Keys, pick);
    CloseAllEmpties(w, w.store.Keys, pick);
    forall p ensures w'.closed[p] == w.closed[p] + if p in InStore(w) then 1 else 0 {
      CloseAllCloses(w, w.store.Keys, pick, p);
      if p in InStore(w) {
        var id :| id in w.store && w.store[id].proxy == Some(p);
        assert Holders(w.store, w.store.Keys, p) == {id};
      } else {
        assert Holders(w.store, w.store.Keys, p) == {};
      }
    }
    forall p | p in w.started ensures w'.closed[p] > 0 {
      assert p in Open(w) || p in w.closed;
    }
  }

  /** No pass of the run takes the stranding branch. */
  predicate Unstranded(w: World, d: Daemon, events: seq<Event>)
    decreases events
  {
    events == [] ||
    (&& (events[0].Reconciled? ==> !StrandsProxy(w, d, events[0].id, events[0].script))
     && Unstranded(Apply(w, d, events[0]), d, events[1..]))
  }

  /** The proxy has been closed twice, or closed and kept in the store, where the next Close
      will be its second. */
  ghost predicate Spoiled(w: World, p: nat) {
    w.closed[p] >= 2 || (w.closed[p] >= 1 && exists id :: id in w.store && w.store[id].proxy == Some(p))
  }

  lemma SpoiledNotInv(w: World, p: nat)
    requires Spoiled(w, p)
    ensures !ProxyInv(w)
  {
    if w.closed[p] == 1 {
      var id :| id in w.store && w.store[id].proxy == Some(p);
      assert w.store[id].proxy.value in InStore(w) && p !in Open(w);
    }
  }

  lemma SpoiledStep(w: World, w': World, id: string, p: nat)
    requires Spoiled(w, p) && ProxyStep(w, w', id)
    ensures Spoiled(w', p)
  {
    OtherEntries(w, w', id);
    if w.closed[p] == 1 {
      var i :| i in w.store && w.store[i].proxy == Some(p);
      assert i != id ==> i in w'.store && w'.store[i].proxy == Some(p);
      assert i == id && w'.closed == w.closed ==> i in w'.store && w'.store[i].proxy == Some(p);
    }
  }

  /** No event mends it. */
  lemma SpoiledStays(w: World, d: Daemon, ev: Event, p: nat)
    requires KeyInv(w) && Spoiled(w, p)
    ensures Spoiled(Apply(w, d, ev), p)
  {
    hide ReconcileService;
    hide KeyInv;
    hide CloseAll;
    hide StrandsProxy;
    hide ProxyStep;
    hide Shape;
    match ev
    case Reconciled(id, s) =>
      InvGivesBooks(w, id);
      if StrandsProxy(w, d, id, s) {
        StrandedProxy(w, d, id, s);
        var w' := Apply(w, d, ev);
        OtherEntries(w, w', id);
        assert InOnly(EntryOf(w', id)).proxy == EntryOf(w, id).proxy;
        forall i | i in w.store && w.store[i].proxy == Some(p) ensures i in w'.store && w'.store[i].proxy == Some(p) {}
      } else {
        ReconcileProxyStep(w, d, id, s);
        SpoiledStep(w, Apply(w, d, ev), id, p);
      }
    case SwarmChanged(_, _) =>
    case Shutdown(pick) =>
      CloseAllCloses(w, w.store.Keys, pick, p);
      if w.closed[p] == 1 {
        var id :| id in w.store && w.store[id].proxy == Some(p);
        assert id in Holders(w.store, w.store.Keys, p);
      }
  }

  lemma {:induction false} SpoiledForGood(w: World, d: Daemon, events: seq<Event>, p: nat)
    requires KeyInv(w) && Spoiled(w, p)
    ensures Spoiled(Run(w, d, events), p)
    decreases events
  {
    hide Apply;
    hide KeyInv;
    hide Spoiled;
    if events != [] {
      EventSettles(w, d, events[0]);
      SpoiledStays(w, d, events[0], p);
      SpoiledForGood(Apply(w, d, events[0]), d, events[1..], p);
    }
  }

  lemma StrandsSpoils(w: World, d: Daemon, id: string, s: Script)
    requires Shape(EntryOf(w, id)) && StrandsProxy(w, d, id, s)
    ensures EntryOf(w, id).proxy.Some? && Spoiled(ReconcileService(w, d, id, s).w, EntryOf(w, id).proxy.value)
  {
    hide ReconcileService;
    hide Shape;
    hide StrandsProxy;
    StrandedProxy(w, d, id, s);
    StrandsHolds(w, d, id, s);
    var w' := ReconcileService(w, d, id, s).w;
    assert InOnly(EntryOf(w', id)).proxy == EntryOf(w, id).proxy;
    assert id in w'.store;
  }

  /** Over every run, with services changing and shutdowns in between: the open proxies are
      exactly those in the store and none was ever closed twice, if and only if no pass took
      the stranding branch. Once lost, this never comes back. */
  lemma {:induction false} ProxiesOverRun(w: World, d: Daemon, events: seq<Event>)
    requires ProxyInv(w) && KeyInv(w)
    ensures ProxyInv(Run(w, d, events)) <==> Unstranded(w, d, events)
    decreases events
  {
    hide ReconcileService;
    hide KeyInv;
    hide CloseAll;
    hide StrandsProxy;
    hide ProxyInv;
    hide Spoiled;
    hide Shape;
    if events != [] {
      var ev := events[0];
      EventSettles(w, d, ev);
      if ev.Reconciled? && StrandsProxy(w, d, ev.id, ev.script) {
        InvGivesBooks(w, ev.id);
        StrandsSpoils(w, d, ev.id, ev.script);
        var p := EntryOf(w, ev.id).proxy.value;
        SpoiledForGood(Apply(w, d, ev), d, events[1..], p);
        SpoiledNotInv(Run(w, d, events), p);
      } else {
        ProxyInvAfter(w, d, ev);
        ProxiesOverRun(Apply(w, d, ev), d, events[1..]);
      }
    }
  }

  lemma ProxyInvAfter(w: World, d: Daemon, ev: Event)
    requires ProxyInv(w) && KeyInv(w) && (ev.Reconciled? ==> !StrandsProxy(w, d, ev.id, ev.script))
    ensures ProxyInv(Apply(w, d, ev))
  {
    hide ReconcileService;
    hide KeyInv;
    hide CloseAll;
    hide StrandsProxy;
    match ev
    case Reconciled(id, s) =>
      InvGivesBooks(w, id);
      ProxyInvKeptIff(w, d, id, s);
    case SwarmChanged(_, _) =>
      assert Open(Apply(w, d, ev)) == Open(w) && InStore(Apply(w, d, ev)) == InStore(w);
    case Shutdown(pick) => CloseAllLeavesNoneOpen(w, pick);
  }
}
