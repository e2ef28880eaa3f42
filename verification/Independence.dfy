/** Ingress and egress share one store entry, and deletes of it look at both halves. Still
    each half evolves as if the other did not exist, a missing entry counting as the zero
    entry. */
module Independence {
  import opened Text
  import opened Targets
  import opened Gateway
  import opened Labels
  import opened World
  import opened Egress
  import opened Reconcile
  import opened Mirror
  import opened Loops
  import opened Convergence
  import opened EgressTheorems
  import opened Ledger
  import opened Conservation
  import opened Proxies
  import opened Congruence

  // ---------- one pass, split into its halves ----------

  datatype Verdict = Skip | Down | Up(target: Target)

  /** What a pass makes of the service, before either direction runs. */
  function Decide(services: map<string, Service>, d: Daemon, id: string, s: Script): Verdict {
    if !s.inspect then Skip
    else if id !in services then Down
    else if IsGateway(services[id].spec) || s.networks.None? then Skip
    else match ParseLabels(d.rules, services[id].spec, s.networks.value)
      case Malformed(_) => Down
      case Disabled => Down
      case Enabled(tgt) => Up(tgt)
  }

  /** A daemon that knows ingress only. */
  function IngressHalf(w: World, d: Daemon, id: string, s: Script): World {
    match Decide(w.services, d, id, s)
    case Skip => w
    case Down => Delete(TeardownIngress(w, id, s.ingress).w, id)
    case Up(tgt) => IngressPass(w, id, tgt, d.cfg, s.ingress).w
  }

  /** A daemon that knows egress only. */
  function EgressHalf(w: World, d: Daemon, id: string, s: Script): World {
    match Decide(w.services, d, id, s)
    case Skip => w
    case Down => Delete(TeardownEgress(w, id, s.egress.remove).w, id)
    case Up(tgt) => EgressStep(w, d, id, tgt, s.egress).w
  }

  lemma ReconcileDecides(w: World, d: Daemon, id: string, s: Script)
    ensures ReconcileService(w, d, id, s).w ==
            match Decide(w.services, d, id, s) {
              case Skip => w
              case Down => Teardown(w, id, s).w
              case Up(tgt) => EgressStep(IngressPass(w, id, tgt, d.cfg, s.ingress).w, d, id, tgt, s.egress).w
            }
  {
    hide ParseLabels;
    hide Teardown;
    hide IngressPass;
    hide EgressStep;
    hide IsGateway;
  }

  // ---------- ingress ----------

  /** The two worlds agree on everything ingress. */
  ghost predicate SameIngress(w: World, u: World) {
    && w.started == u.started && w.closed == u.closed
    && forall id :: InOnly(EntryOf(w, id)) == InOnly(EntryOf(u, id))
  }

  ghost predicate AllTidy(w: World) { forall id :: Tidy(EntryOf(w, id)) }

  /** A step on one entry that ends in the given ingress half. */
  lemma EntryFrame(w: World, w': World, id: string)
    requires w'.store - {id} == w.store - {id}
    ensures forall i :: i != id ==> EntryOf(w', i) == EntryOf(w, i)
  {
    OtherEntries(w, w', id);
  }

  lemma TornSame(w: World, u: World, id: string, a: IngressAnswers)
    requires InOnly(EntryOf(w, id)) == InOnly(EntryOf(u, id)) && w.started == u.started && w.closed == u.closed
    ensures var w', u' := TeardownIngress(w, id, a).w, TeardownIngress(u, id, a).w;
            && InOnly(EntryOf(w', id)) == InOnly(EntryOf(u', id)) && w'.started == u'.started && w'.closed == u'.closed
            && w'.store - {id} == w.store - {id} && u'.store - {id} == u.store - {id}
  {
    hide TeardownIngress;
    TornEntry(w, id, a);
    TornEntry(u, id, a);
    IngressTeardownExact(w, id, a);
    IngressTeardownExact(u, id, a);
  }

  lemma TornEntry(w: World, id: string, a: IngressAnswers)
    ensures var e := EntryOf(w, id);
            InOnly(EntryOf(TeardownIngress(w, id, a).w, id)) ==
            if e.preAuthKey != "" && !a.wait then InOnly(e)
            else if e.proxy.None? && e.preAuthKey == "" then InOnly(e) else ZERO_ENTRY
  {
  }

  predicate Starts(w: World, a: IngressAnswers) { a.wait && Rotates(w, a) }

  /** What reconcileIngress comes to for a service that asks for ingress: left alone, tried in
      vain, or a proxy started for it with the key the store then names, the old one closed.
      It reports success unless it tried in vain. */
  lemma StartExact(w: World, id: string, tgt: Target, cfg: Config, a: IngressAnswers)
    requires tgt.ingress
    ensures var e := EntryOf(w, id);
            var config := ProxyConfig(tgt.hostname, tgt.serviceName, tgt.ports, cfg.stateDir, cfg.loginURL, [tgt.tag]);
            var upToDate := e.specHash == HashOf(config) && e.proxy.Some?;
            var r := IngressPass(w, id, tgt, cfg, a);
            && (r.ok <==> upToDate || Starts(w, a))
            && r.w.store - {id} == w.store - {id} && EntryOf(r.w, id).gateways == e.gateways
            && if upToDate || !Starts(w, a)
               then && InOnly(EntryOf(r.w, id)) == InOnly(e)
                    && r.w.started == w.started && r.w.closed == w.closed && r.w.launched == w.launched
               else && InOnly(EntryOf(r.w, id)) == InOnly(e).(proxy := a.start, specHash := HashOf(config), preAuthKey := a.key.value.id)
                    && r.w.started == w.started + {a.start.value} && r.w.closed == w.closed + AsMultiset(e.proxy)
                    && r.w.launched == w.launched[a.start.value := Launch(config, a.key.value.secret)]
  {
    hide HashOf;
    hide Rotate;
    RotateExact(w, id, EntryOf(w, id), ProxyConfigFor(tgt, cfg), a);
    var w' := IngressPass(w, id, tgt, cfg, a).w;
    assert w'.store - {id} == w.store - {id};
    assert w.closed + multiset{} == w.closed;
  }

  lemma IngressSame(w: World, u: World, id: string, tgt: Target, cfg: Config, a: IngressAnswers)
    requires InOnly(EntryOf(w, id)) == InOnly(EntryOf(u, id)) && w.started == u.started && w.closed == u.closed
    requires w.minted == u.minted
    ensures var w', u' := IngressPass(w, id, tgt, cfg, a).w, IngressPass(u, id, tgt, cfg, a).w;
            && InOnly(EntryOf(w', id)) == InOnly(EntryOf(u', id)) && w'.started == u'.started && w'.closed == u'.closed
            && w'.store - {id} == w.store - {id} && u'.store - {id} == u.store - {id}
  {
    hide HashOf;
    hide TeardownIngress;
    if !tgt.ingress {
      TornSame(w, u, id, a);
    } else {
      hide IngressPass;
      StartExact(w, id, tgt, cfg, a);
      StartExact(u, id, tgt, cfg, a);
    }
  }

  /** One pass: its ingress effect is that of the ingress half alone. */
  lemma IngressIndependent(w: World, u: World, d: Daemon, id: string, s: Script)
    requires SameIngress(w, u) && AllTidy(w) && w.services == u.services && w.minted == u.minted
    ensures SameIngress(ReconcileService(w, d, id, s).w, IngressHalf(u, d, id, s))
  {
    hide ReconcileService;
    hide Decide;
    hide TeardownIngress;
    hide TeardownEgress;
    hide IngressPass;
    hide EgressStep;
    ReconcileDecides(w, d, id, s);
    var w', u' := ReconcileService(w, d, id, s).w, IngressHalf(u, d, id, s);
    match Decide(w.services, d, id, s)
    case Skip =>
    case Down =>
      TornSame(w, u, id, s.ingress);
      var w1 := TeardownIngress(w, id, s.ingress).w;
      IngressTornTidy(w, id, s.ingress);
      TeardownEgressKeepsProxies(w1, id, s.egress.remove);
      EntryFrame(w, w', id);
      EntryFrame(u, u', id);
    case Up(tgt) =>
      IngressSame(w, u, id, tgt, d.cfg, s.ingress);
      IngressKeepsTidy(w, id, tgt, d.cfg, s.ingress);
      var w1 := IngressPass(w, id, tgt, d.cfg, s.ingress).w;
      EgressKeepsProxies(w1, d, id, tgt, s.egress);
      EntryFrame(w, w', id);
      EntryFrame(u, u', id);
  }

  /** An ingress-only daemon living through the same events. The cluster and Headscale are
      outside it, so it hears of them what the real daemon hears. */
  function IngressAlone(u: World, w: World, d: Daemon, events: seq<Event>): World
    decreases events
  {
    if events == [] then u
    else
      var u1 :=
        match events[0]
        case Reconciled(id, s) => IngressHalf(u.(services := w.services, minted := w.minted), d, id, s)
        case SwarmChanged(_, _) => u
        case Shutdown(pick) => CloseAll(u, u.store.Keys, pick);
      IngressAlone(u1, Apply(w, d, events[0]), d, events[1..])
  }

  lemma InvTidy(w: World)
    requires KeyInv(w)
    ensures AllTidy(w)
  {
    hide Shape;
    forall id ensures Tidy(EntryOf(w, id)) {
      if id in w.store {
        ShapeTidy(w.store[id]);
      }
    }
  }

  lemma ShutdownSame(w: World, u: World, pick: Picker)
    requires SameIngress(w, u)
    ensures SameIngress(CloseAll(w, w.store.Keys, pick), CloseAll(u, u.store.Keys, pick))
  {
    hide CloseAll;
    CloseAllEmpties(w, w.store.Keys, pick);
    CloseAllEmpties(u, u.store.Keys, pick);
    var w', u' := CloseAll(w, w.store.Keys, pick), CloseAll(u, u.store.Keys, pick);
    forall p ensures w'.closed[p] == u'.closed[p] {
      CloseAllCloses(w, w.store.Keys, pick, p);
      CloseAllCloses(u, u.store.Keys, pick, p);
      forall id ensures id in Holders(w.store, w.store.Keys, p) <==> id in Holders(u.store, u.store.Keys, p) {
        assert InOnly(EntryOf(w, id)).proxy == InOnly(EntryOf(u, id)).proxy;
      }
      assert Holders(w.store, w.store.Keys, p) == Holders(u.store, u.store.Keys, p);
    }
    assert w'.closed == u'.closed;
  }

  /** Over every run: the ingress half of the store, and the proxies started and closed, are
      those of a daemon that knows no egress. */
  lemma {:induction false} IngressRunsAlone(w: World, u: World, d: Daemon, events: seq<Event>)
    requires KeyInv(w) && SameIngress(w, u)
    ensures SameIngress(Run(w, d, events), IngressAlone(u, w, d, events))
    decreases events
  {
    hide ReconcileService;
    hide IngressHalf;
    hide CloseAll;
    hide KeyInv;
    hide SameIngress;
    if events != [] {
      EventSettles(w, d, events[0]);
      InvTidy(w);
      match events[0]
      case Reconciled(id, s) =>
        var u1 := u.(services := w.services, minted := w.minted);
        SameIngressKept(w, u, w, u1);
        IngressIndependent(w, u1, d, id, s);
        IngressRunsAlone(Apply(w, d, events[0]), IngressHalf(u1, d, id, s), d, events[1..]);
      case SwarmChanged(_, _) =>
        SameIngressKept(w, u, Apply(w, d, events[0]), u);
        IngressRunsAlone(Apply(w, d, events[0]), u, d, events[1..]);
      case Shutdown(pick) =>
        ShutdownSame(w, u, pick);
        IngressRunsAlone(Apply(w, d, events[0]), CloseAll(u, u.store.Keys, pick), d, events[1..]);
    }
  }

  lemma SameIngressKept(w: World, u: World, w': World, u': World)
    requires SameIngress(w, u)
    requires w'.store == w.store && w'.started == w.started && w'.closed == w.closed
    requires u'.store == u.store && u'.started == u.started && u'.closed == u.closed
    ensures SameIngress(w', u')
  {
    forall id ensures InOnly(EntryOf(w', id)) == InOnly(EntryOf(u', id)) {
      assert InOnly(EntryOf(w, id)) == InOnly(EntryOf(u, id));
    }
  }

  // ---------- egress ----------

  /** The egress half of an entry; without gateways it counts as empty. */
  function OutView(e: Entry): Entry {
    if e.gateways == [] then ZERO_ENTRY else ZERO_ENTRY.(gateways := e.gateways, gatewayHash := e.gatewayHash)
  }

  /** The two worlds agree on everything egress. */
  ghost predicate SameEgress(w: World, u: World) {
    && w.services == u.services && w.ids == u.ids && w.made == u.made
    && forall id :: OutView(EntryOf(w, id)) == OutView(EntryOf(u, id))
  }

  /** A recorded hash without recorded gateways comes with no running gateway: no failed
      update has left one behind. Complete records have this. */
  ghost predicate NoOrphans(w: World, id: string) {
    EntryOf(w, id).gateways == [] && EntryOf(w, id).gatewayHash.SetHash? ==> forall g :: !Runs(w.services, id, g)
  }

  lemma CompleteHasNoOrphans(w: World, id: string)
    requires Complete(w, id)
    ensures NoOrphans(w, id)
  {
    hide MarkedFor;
    hide TargetAddr;
    if EntryOf(w, id).gateways == [] {
      assert StoreIndex(EntryOf(w, id).gateways) == map[];
    }
  }

  /** With an empty record the gate is closed. */
  lemma EmptyRecordGate(w: World, job: Job, pick: Picker)
    requires NoOrphans(w, job.app) && EntryOf(w, job.app).gateways == [] && job.eg.targets != []
    ensures !FastGate(job, EntryOf(w, job.app), Tracked(w, job.app, pick), Wanted(job))
  {
    hide MarkedFor;
    hide WholeHash;
    WholeHashIsSet(job);
    if EntryOf(w, job.app).gatewayHash.SetHash? {
      assert forall g :: g in Gateways(w, job.app) ==> Runs(w.services, job.app, g);
      assert Gateways(w, job.app) == {};
      assert Tracked(w, job.app, pick) == map[];
      assert job.eg.targets[0] in job.eg.targets;
    }
  }

  lemma GateSame(w: World, u: World, job: Job, pick: Picker)
    requires NoOrphans(w, job.app) && NoOrphans(u, job.app) && job.eg.targets != [] && w.services == u.services
    requires OutView(EntryOf(w, job.app)) == OutView(EntryOf(u, job.app))
    ensures Tracked(w, job.app, pick) == Tracked(u, job.app, pick)
    ensures FastGate(job, EntryOf(w, job.app), Tracked(w, job.app, pick), Wanted(job)) <==>
            FastGate(job, EntryOf(u, job.app), Tracked(u, job.app, pick), Wanted(job))
  {
    hide Tracked;
    hide NoOrphans;
    hide WholeHash;
    hide Wanted;
    SameTracked(w, u, job.app, pick);
    if EntryOf(w, job.app).gateways == [] {
      EmptyRecordGate(w, job, pick);
      EmptyRecordGate(u, job, pick);
    }
  }

  lemma EgressPassSame(w: World, u: World, job: Job, ans: Answers)
    requires NoOrphans(w, job.app) && NoOrphans(u, job.app) && job.eg.targets != [] && SameOutside(w, u)
    requires OutView(EntryOf(w, job.app)) == OutView(EntryOf(u, job.app))
    ensures var w', u' := EgressPass(w, job, ans).w, EgressPass(u, job, ans).w;
            SameOutside(w', u') && OutView(EntryOf(w', job.app)) == OutView(EntryOf(u', job.app))
  {
    hide Tracked;
    hide FastGate;
    hide EgressPass;
    hide SlowPath;
    hide NoOrphans;
    hide Wanted;
    GateSame(w, u, job, ans.pick);
    EgressPassCases(w, job, ans);
    EgressPassCases(u, job, ans);
    SameSlowPath(w, u, job, Tracked(w, job.app, ans.pick), ans);
  }

  lemma TeardownEgressSame(w: World, u: World, app: string, remove: string -> RemoveAnswers)
    requires SameOutside(w, u) && OutView(EntryOf(w, app)) == OutView(EntryOf(u, app))
    ensures var w', u' := TeardownEgress(w, app, remove).w, TeardownEgress(u, app, remove).w;
            && SameOutside(w', u') && OutView(EntryOf(w', app)) == OutView(EntryOf(u', app)) == ZERO_ENTRY
            && w'.store - {app} == w.store - {app}
  {
    hide RemoveAll;
    SameRemoveAll(w, u, EntryOf(w, app).gateways, remove);
    RemoveAllStore(w, EntryOf(w, app).gateways, remove);
    RemoveAllStore(u, EntryOf(w, app).gateways, remove);
  }

  /** What an ingress step does to the egress half: nothing, but for the hash of an entry
      that records no gateway. */
  ghost predicate EgressKept(w: World, w': World, id: string) {
    var e, e' := EntryOf(w, id), EntryOf(w', id);
    && w'.services == w.services && w'.ids == w.ids && w'.made == w.made && w'.store - {id} == w.store - {id}
    && e'.gateways == e.gateways
    && (e'.gatewayHash == e.gatewayHash || (e.gateways == [] && e'.gatewayHash == NoSetHash))
  }

  lemma TornKeepsEgress(w: World, id: string, a: IngressAnswers)
    ensures EgressKept(w, TeardownIngress(w, id, a).w, id) && TeardownIngress(w, id, a).w.minted == w.minted
  {
    IngressTeardownExact(w, id, a);
    hide AsMultiset;
    hide IngressKey;
  }

  lemma IngressKeepsEgress(w: World, id: string, tgt: Target, cfg: Config, a: IngressAnswers)
    ensures EgressKept(w, IngressPass(w, id, tgt, cfg, a).w, id)
  {
    hide HashOf;
    hide TeardownIngress;
    TornKeepsEgress(w, id, a);
    var w' := IngressPass(w, id, tgt, cfg, a).w;
    assert tgt.ingress ==> w'.store - {id} == w.store - {id};
  }

  lemma OrphansKept(w: World, w': World, id: string)
    requires NoOrphans(w, id) && EgressKept(w, w', id)
    ensures NoOrphans(w', id) && OutView(EntryOf(w', id)) == OutView(EntryOf(w, id))
  {
    hide Runs;
  }

  lemma EgressStepSame(w: World, u: World, d: Daemon, id: string, tgt: Target, ans: Answers)
    requires NoOrphans(w, id) && NoOrphans(u, id) && SameOutside(w, u) && OutView(EntryOf(w, id)) == OutView(EntryOf(u, id))
    requires tgt.egress.Some? ==> tgt.egress.value.targets != []
    ensures var w', u' := EgressStep(w, d, id, tgt, ans).w, EgressStep(u, d, id, tgt, ans).w;
            && SameOutside(w', u') && OutView(EntryOf(w', id)) == OutView(EntryOf(u', id))
            && w'.store - {id} == w.store - {id} && u'.store - {id} == u.store - {id}
  {
    hide EgressPass;
    hide TeardownEgress;
    hide NoOrphans;
    hide OutView;
    hide InOnly;
    if tgt.egress.None? {
      TeardownEgressSame(w, u, id, ans.remove);
      TeardownEgressSame(u, w, id, ans.remove);
    } else {
      var job := Job(d.cfg, id, tgt.egress.value, d.image);
      EgressPassSame(w, u, job, ans);
      EgressPassKeepsProxies(w, job, ans);
      EgressPassKeepsProxies(u, job, ans);
    }
  }

  lemma AcceptedHasTargets(w: World, d: Daemon, id: string, s: Script)
    requires Decide(w.services, d, id, s).Up?
    ensures var tgt := Decide(w.services, d, id, s).target;
            tgt.egress.Some? ==> tgt.egress.value.targets != []
  {
    hide ParseLabels;
    hide IsGateway;
    AcceptedTarget(d.rules, w.services[id].spec, s.networks.value);
  }

  /** One pass: its egress effect is that of the egress half alone, with the key IDs
      taken that Headscale has handed out by the time that half runs. */
  lemma EgressIndependent(w: World, u: World, d: Daemon, id: string, s: Script)
    requires SameEgress(w, u) && NoOrphans(w, id) && NoOrphans(u, id)
    requires u.minted == IngressHalf(w, d, id, s).minted
    ensures SameEgress(ReconcileService(w, d, id, s).w, EgressHalf(u, d, id, s))
  {
    assert w.services == u.services;
    hide ReconcileService;
    hide Decide;
    hide TeardownIngress;
    hide TeardownEgress;
    hide IngressPass;
    hide EgressStep;
    hide NoOrphans;
    hide OutView;
    hide SameEgress;
    hide Teardown;
    ReconcileDecides(w, d, id, s);
    match Decide(w.services, d, id, s)
    case Skip =>
    case Down => EgressDownSame(w, u, id, s);
    case Up(tgt) =>
      AcceptedHasTargets(w, d, id, s);
      EgressUpSame(w, u, d, id, tgt, s);
  }

  lemma EgressDownSame(w: World, u: World, id: string, s: Script)
    requires SameEgress(w, u) && NoOrphans(w, id) && u.minted == TeardownIngress(w, id, s.ingress).w.minted
    ensures SameEgress(Teardown(w, id, s).w, Delete(TeardownEgress(u, id, s.egress.remove).w, id))
  {
    hide TeardownIngress;
    hide TeardownEgress;
    hide NoOrphans;
    hide OutView;
    TornKeepsEgress(w, id, s.ingress);
    var w1 := TeardownIngress(w, id, s.ingress).w;
    OrphansKept(w, w1, id);
    TeardownEgressSame(w1, u, id, s.egress.remove);
    TeardownEgressSame(u, w1, id, s.egress.remove);
    EntryFrame(w, Teardown(w, id, s).w, id);
    EntryFrame(u, Delete(TeardownEgress(u, id, s.egress.remove).w, id), id);
  }

  lemma EgressUpSame(w: World, u: World, d: Daemon, id: string, tgt: Target, s: Script)
    requires SameEgress(w, u) && NoOrphans(w, id) && NoOrphans(u, id)
    requires u.minted == IngressPass(w, id, tgt, d.cfg, s.ingress).w.minted
    requires tgt.egress.Some? ==> tgt.egress.value.targets != []
    ensures SameEgress(EgressStep(IngressPass(w, id, tgt, d.cfg, s.ingress).w, d, id, tgt, s.egress).w,
                       EgressStep(u, d, id, tgt, s.egress).w)
  {
    hide IngressPass;
    hide EgressStep;
    hide NoOrphans;
    hide OutView;
    IngressKeepsEgress(w, id, tgt, d.cfg, s.ingress);
    var w1 := IngressPass(w, id, tgt, d.cfg, s.ingress).w;
    OrphansKept(w, w1, id);
    EgressStepSame(w1, u, d, id, tgt, s.egress);
    EntryFrame(w, EgressStep(w1, d, id, tgt, s.egress).w, id);
    EntryFrame(u, EgressStep(u, d, id, tgt, s.egress).w, id);
  }

  /** An egress-only daemon living through the same events; of the ingress side it notices
      only which key IDs Headscale has taken. */
  function EgressAlone(u: World, w: World, d: Daemon, events: seq<Event>): World
    decreases events
  {
    if events == [] then u
    else EgressAlone(EgressEvent(u, w, d, events[0]), Apply(w, d, events[0]), d, events[1..])
  }

  function EgressEvent(u: World, w: World, d: Daemon, ev: Event): World {
    match ev
    case Reconciled(id, s) => EgressHalf(u.(minted := IngressHalf(w, d, id, s).minted), d, id, s)
    case SwarmChanged(services, ids) => u.(services := services, ids := ids)
    case Shutdown(pick) => CloseAll(u, u.store.Keys, pick)
  }

  /** Neither daemon has a failed update behind it when it reconciles. */
  ghost predicate Unorphaned(u: World, w: World, d: Daemon, events: seq<Event>)
    decreases events
  {
    events == [] ||
    (&& (events[0].Reconciled? ==> NoOrphans(w, events[0].id) && NoOrphans(u, events[0].id))
     && Unorphaned(EgressEvent(u, w, d, events[0]), Apply(w, d, events[0]), d, events[1..]))
  }

  lemma EgressEventSame(w: World, u: World, d: Daemon, ev: Event)
    requires SameEgress(w, u) && (ev.Reconciled? ==> NoOrphans(w, ev.id) && NoOrphans(u, ev.id))
    ensures SameEgress(Apply(w, d, ev), EgressEvent(u, w, d, ev))
  {
    hide ReconcileService;
    hide IngressHalf;
    hide EgressHalf;
    hide CloseAll;
    hide Runs;
    match ev
    case Reconciled(id, s) =>
      var u1 := u.(minted := IngressHalf(w, d, id, s).minted);
      assert forall i :: EntryOf(u1, i) == EntryOf(u, i);
      EgressIndependent(w, u1, d, id, s);
    case SwarmChanged(services, ids) =>
      assert forall i :: EntryOf(Apply(w, d, ev), i) == EntryOf(w, i);
      assert forall i :: EntryOf(EgressEvent(u, w, d, ev), i) == EntryOf(u, i);
    case Shutdown(pick) =>
      CloseAllEmpties(w, w.store.Keys, pick);
      CloseAllEmpties(u, u.store.Keys, pick);
      CloseAllOutside(w, w.store.Keys, pick);
      CloseAllOutside(u, u.store.Keys, pick);
  }

  lemma {:induction false} CloseAllOutside(w: World, todo: set<string>, pick: Picker)
    ensures SameOutside(CloseAll(w, todo, pick), w)
    decreases todo
  {
    if todo != {} {
      var id := pick(todo);
      CloseAllOutside(CloseOne(w, id), todo - {id}, pick);
    }
  }

  /** Over every run without failed updates: the gateways, their records and the hash that
      goes with them are those of a daemon that knows no ingress. */
  lemma {:induction false} EgressRunsAlone(w: World, u: World, d: Daemon, events: seq<Event>)
    requires SameEgress(w, u) && Unorphaned(u, w, d, events)
    ensures SameEgress(Run(w, d, events), EgressAlone(u, w, d, events))
    decreases events
  {
    hide Apply;
    hide EgressEvent;
    hide NoOrphans;
    hide SameEgress;
    if events != [] {
      EgressEventSame(w, u, d, events[0]);
      EgressRunsAlone(Apply(w, d, events[0]), EgressEvent(u, w, d, events[0]), d, events[1..]);
    }
  }

  // ---------- why orphans matter ----------

  /** A failed update has orphaned every gateway: they run at the wanted addresses, the hash
      is recorded, no gateway is. The service still has an ingress key and now asks for
      egress alone. */
  ghost predicate Orphaned(w: World, d: Daemon, id: string, s: Script, job: Job) {
    var e := EntryOf(w, id);
    && Decide(w.services, d, id, s).Up? && !Decide(w.services, d, id, s).target.ingress
    && Decide(w.services, d, id, s).target.egress == Some(job.eg) && job == Job(d.cfg, id, job.eg, d.image)
    && e.gateways == [] && e.preAuthKey != "" && s.ingress.wait
    && Sound(w, d.cfg, id) && GateOpen(w, job) && GoodJob(job)
  }

  /** The entry goes with the ingress half, and the orphans' hash with it. */
  lemma OrphanedEntry(w: World, d: Daemon, id: string, s: Script, job: Job)
    requires Orphaned(w, d, id, s, job)
    ensures var w1 := IngressPass(w, id, Decide(w.services, d, id, s).target, d.cfg, s.ingress).w;
            && w1.services == w.services && w1.ids == w.ids && EntryOf(w1, id) == ZERO_ENTRY && Sound(w1, d.cfg, id)
            && ReconcileService(w, d, id, s).w == EgressPass(w1, job, s.egress).w
  {
    hide Decide;
    hide GateOpen;
    hide Sound;
    hide ReconcileService;
    hide EgressPass;
    hide AllGood;
    hide IngressKey;
    var tgt := Decide(w.services, d, id, s).target;
    ReconcileDecides(w, d, id, s);
    TeardownEnds(w, id, s.ingress);
    SameSound(w, IngressPass(w, id, tgt, d.cfg, s.ingress).w, d.cfg, id);
  }

  lemma NoLines(w: World, app: string)
    requires EntryOf(w, app).gateways == []
    ensures Lines(w, app) == map[] && Recorded(w, app) && Untaken(w.services, app, Lines(w, app))
  {
    hide Describes;
  }

  lemma OrphansRepaired(w: World, job: Job, ans: Answers)
    requires Sound(w, job.cfg, job.app) && EntryOf(w, job.app) == ZERO_ENTRY && GoodJob(job)
    requires NamesApart(job) && NamesFree(w.services, job) && FaultFree(w, job, ans)
    ensures Converged(EgressPass(w, job, ans).w, job)
  {
    hide Sound;
    hide Recorded;
    hide EgressPass;
    hide AllGood;
    hide NamesApart;
    hide NamesFree;
    hide FaultFree;
    hide Untaken;
    hide Usable;
    hide Converged;
    hide Stuck;
    hide InOrder;
    hide GateOpen;
    hide Lines;
    hide Wanted;
    hide NothingAt;
    NoLines(w, job.app);
    UntakenIsUsable(w.services, job, Lines(w, job.app));
    UnsetIsClosed(w, job);
    NothingStuck(w, job);
    ConvergesIff(w, job, ans);
  }

  lemma OrphansUntouched(w: World, d: Daemon, id: string, s: Script, job: Job)
    requires Orphaned(w, d, id, s, job)
    ensures EgressHalf(w, d, id, s) == w && !Converged(w, job) && Wanted(job) != map[]
  {
    hide Decide;
    hide GateOpen;
    hide Sound;
    hide Recorded;
    hide Untaken;
    hide EgressPass;
    hide AllGood;
    hide Converged;
    hide Lines;
    hide Wanted;
    AcceptedHasTargets(w, d, id, s);
    NoLines(w, id);
    OpenIsIdle(w, job, s.egress);
    WantsSome(job);
    NoLinesNotConverged(w, job);
  }

  /** The daemon deletes the entry with its ingress half, so its next diff adopts the orphans
      and converges. The egress-only daemon finds its gate open and never touches them. */
  lemma OrphansMatter(w: World, d: Daemon, id: string, s: Script, job: Job)
    requires Orphaned(w, d, id, s, job) && NamesApart(job) && NamesFree(w.services, job)
    requires FaultFree(IngressPass(w, id, Decide(w.services, d, id, s).target, d.cfg, s.ingress).w, job, s.egress)
    ensures var w', u' := ReconcileService(w, d, id, s).w, EgressHalf(w, d, id, s);
            Converged(w', job) && u' == w && !Converged(u', job) && !SameEgress(w', u')
  {
    hide Decide;
    hide GateOpen;
    hide Sound;
    hide ReconcileService;
    hide EgressHalf;
    hide IngressPass;
    hide EgressPass;
    hide AllGood;
    hide NamesApart;
    hide NamesFree;
    hide FaultFree;
    hide Converged;
    hide Lines;
    hide Recorded;
    hide Untaken;
    hide Wanted;
    hide OutView;
    OrphanedEntry(w, d, id, s, job);
    OrphansRepaired(IngressPass(w, id, Decide(w.services, d, id, s).target, d.cfg, s.ingress).w, job, s.egress);
    OrphansUntouched(w, d, id, s, job);
    var w' := ReconcileService(w, d, id, s).w;
    if EntryOf(w', id).gateways == [] {
      NoLines(w', id);
      NoLinesNotConverged(w', job);
    }
    ViewsDiffer(EntryOf(w', id), EntryOf(w, id));
  }

  lemma ViewsDiffer(e: Entry, e': Entry)
    ensures e.gateways != [] && e'.gateways == [] ==> OutView(e) != OutView(e')
  {
  }

  lemma UnsetIsClosed(w: World, job: Job)
    requires EntryOf(w, job.app).gatewayHash == NoSetHash
    ensures !GateOpen(w, job)
  {
    hide WholeHash;
    hide Addresses;
    hide Wanted;
    WholeHashIsSet(job);
  }

  lemma NothingStuck(w: World, job: Job)
    requires Lines(w, job.app) == map[]
    ensures !Stuck(w, job)
  {
    hide Lines;
    hide Wanted;
    hide WantHash;
    hide Describes;
  }

  lemma WantsSome(job: Job)
    requires job.eg.targets != []
    ensures Wanted(job) != map[]
  {
    assert job.eg.targets[0] in job.eg.targets;
  }

  lemma NoLinesNotConverged(w: World, job: Job)
    requires Lines(w, job.app) == map[] && Wanted(job) != map[]
    ensures !Converged(w, job)
  {
    hide Converged;
    hide Lines;
    hide Wanted;
    hide WantHash;
    hide WholeHash;
    hide Describes;
    hide Covers;
    var a :| a in Wanted(job);
    if Converged(w, job) {
      ConvergedOrder(w, job);
    }
  }
}
