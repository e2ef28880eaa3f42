/** What one pass leaves a service with, said in terms of its labels: nothing, if it is gone,
    has not opted in or asks for something malformed; else the proxy and the gateways its
    labels ask for. */
module Outcomes {
  import opened Text
  import opened Targets
  import opened Gateway
  import opened Labels
  import opened World
  import opened Egress
  import opened Reconcile
  import opened Mirror
  import opened Loops
  import opened Convergence
  import opened EgressTheorems
  import opened Ledger
  import opened Conservation
  import opened Proxies
  import opened Teardowns
  import opened Independence
  import opened Credentials
  import opened Reaching

  /** Docker answers the pass, and the service is no gateway. */
  predicate Heard(w: World, id: string, s: Script) {
    s.inspect && (id in w.services ==> !IsGateway(w.services[id].spec) && s.networks.Some?)
  }

  predicate WantsIngress(d: Daemon, spec: ServiceSpec) { IsTrue(LabelOf(d.rules, spec, "enable")) }

  predicate WantsEgress(d: Daemon, spec: ServiceSpec) { IsTrue(LabelOf(d.rules, spec, "egress.enable")) }

  /** The service is there, has opted in, and its labels are in order. */
  ghost predicate Accepted(w: World, d: Daemon, id: string, s: Script) {
    && Heard(w, id, s) && id in w.services
    && (WantsIngress(d, w.services[id].spec) || WantsEgress(d, w.services[id].spec))
    && FirstError(d.rules, w.services[id].spec, s.networks.value).None?
  }

  /** The proxy the labels ask for. */
  function ConfigOf(d: Daemon, spec: ServiceSpec): ProxyConfig {
    ProxyConfig(Or(LabelOf(d.rules, spec, "hostname"), Derived(spec)), spec.name, Ports(spec), d.cfg.stateDir, d.cfg.loginURL,
                [Or(LabelOf(d.rules, spec, "tag"), "tag:swarm-" + ShortName(spec))])
  }

  /** The gateways the labels ask for. */
  function JobOf(d: Daemon, id: string, spec: ServiceSpec): Job {
    var targets := Targets.Parse(LabelOf(d.rules, spec, "egress.targets"));
    Job(d.cfg, id,
        EgressSpec(Or(LabelOf(d.rules, spec, "egress.hostname"), Derived(spec) + "-egress"),
                   Or(LabelOf(d.rules, spec, "egress.tag"), "tag:swarm-" + ShortName(spec)),
                   Or(LabelOf(d.rules, spec, "egress.network"), Overlay(d.rules)),
                   if targets.Some? then targets.value else []),
        d.image)
  }

  // ---------- which branch a pass takes ----------

  lemma Unheard(w: World, d: Daemon, id: string, s: Script)
    requires !Heard(w, id, s)
    ensures ReconcileService(w, d, id, s) == Step(w, s.inspect && id in w.services && IsGateway(w.services[id].spec))
  {
    hide ParseLabels;
    hide Teardown;
    hide IngressPass;
    hide EgressStep;
    hide IsGateway;
  }

  lemma TornDown(w: World, d: Daemon, id: string, s: Script)
    requires Heard(w, id, s) && !Accepted(w, d, id, s)
    ensures var r, t := ReconcileService(w, d, id, s), Teardown(w, id, s);
            && r.w == t.w
            && (r.ok <==> t.ok && (id !in w.services || FirstError(d.rules, w.services[id].spec, s.networks.value).None?))
  {
    hide ParseLabels;
    hide FirstError;
    hide Teardown;
    hide IngressPass;
    hide EgressStep;
    hide IsGateway;
    hide IsTrue;
    if id in w.services {
      ErrorIs(d.rules, w.services[id].spec, s.networks.value);
      EnabledIff(d.rules, w.services[id].spec, s.networks.value);
    }
  }

  lemma EnabledIff(rules: Rules, spec: ServiceSpec, networks: seq<Network>)
    ensures ParseLabels(rules, spec, networks).Disabled? <==>
            !IsTrue(LabelOf(rules, spec, "enable")) && !IsTrue(LabelOf(rules, spec, "egress.enable"))
  {
    hide IsTrue;
    hide ParseIngress;
    hide ParseEgress;
    KeyReads(rules, spec);
  }

  /** The target of an accepted service is what its labels ask for. */
  lemma AcceptedIs(w: World, d: Daemon, id: string, s: Script) returns (tgt: Target)
    requires id in w.services && Accepted(w, d, id, s)
    ensures var spec := w.services[id].spec;
            && Decide(w.services, d, id, s) == Up(tgt)
            && (tgt.ingress <==> WantsIngress(d, spec)) && (tgt.egress.Some? <==> WantsEgress(d, spec))
            && (tgt.ingress ==> ProxyConfigFor(tgt, d.cfg) == ConfigOf(d, spec))
            && (tgt.egress.Some? ==> Job(d.cfg, id, tgt.egress.value, d.image) == JobOf(d, id, spec) && AllGood(tgt.egress.value.targets))
            && var ing := IngressPass(w, id, tgt, d.cfg, s.ingress);
               var egr := EgressStep(ing.w, d, id, tgt, s.egress);
               ReconcileService(w, d, id, s) == Step(egr.w, ing.ok && egr.ok)
  {
    hide ParseLabels;
    hide FirstError;
    hide IsGateway;
    hide IsTrue;
    hide Targets.Parse;
    hide Ports;
    hide Derived;
    hide ShortName;
    hide AttachedTo;
    hide AllGood;
    hide IngressPass;
    hide EgressStep;
    hide Teardown;
    var spec := w.services[id].spec;
    ErrorIs(d.rules, spec, s.networks.value);
    EnabledIff(d.rules, spec, s.networks.value);
    AcceptedTarget(d.rules, spec, s.networks.value);
    tgt := ParseLabels(d.rules, spec, s.networks.value).target;
  }

  // ---------- nothing is left ----------

  /** A service that is gone, has not opted in, or asks for something malformed is left with
      nothing by a fault-free pass; only the malformed one is reported. */
  lemma UnwantedLeavesNothing(w: World, d: Daemon, id: string, s: Script)
    requires Heard(w, id, s) && !Accepted(w, d, id, s) && Listed(w, id)
    requires s.ingress.wait && s.ingress.close && s.ingress.expire && forall t :: SmoothRemove(s.egress.remove(t))
    ensures var r := ReconcileService(w, d, id, s);
            var e := EntryOf(w, id);
            && id !in r.w.store && (forall g :: !Runs(r.w.services, id, g))
            && (e.proxy.Some? ==> e.proxy.value !in Open(r.w)) && EntryKeys(e) <= r.w.expired
            && (r.ok <==> id !in w.services || FirstError(d.rules, w.services[id].spec, s.networks.value).None?)
  {
    hide Heard;
    hide Accepted;
    hide FirstError;
    hide ReconcileService;
    hide Teardown;
    hide MarkedFor;
    hide EntryKeys;
    TornDown(w, d, id, s);
    TeardownComplete(w, id, s);
  }

  // ---------- what was asked for is there ----------

  /** The ingress half stays as it is while the egress half runs. */
  lemma IngressStays(w: World, d: Daemon, id: string, tgt: Target, s: Script)
    requires KeyInv(w)
    ensures var w1 := IngressPass(w, id, tgt, d.cfg, s.ingress).w;
            var w' := EgressStep(w1, d, id, tgt, s.egress).w;
            && InOnly(EntryOf(w', id)) == InOnly(EntryOf(w1, id))
            && w'.launched == w1.launched && w'.started == w1.started && w'.closed == w1.closed
  {
    hide IngressPass;
    hide EgressStep;
    hide KeyInv;
    hide Tidy;
    InvTidy(w);
    IngressKeepsTidy(w, id, tgt, d.cfg, s.ingress);
    EgressKeepsProxies(IngressPass(w, id, tgt, d.cfg, s.ingress).w, d, id, tgt, s.egress);
  }

  /** The stored proxy runs on the configuration and on the key the store names. */
  ghost predicate RunsOn(w: World, id: string, config: ProxyConfig, vault: Vault) {
    var e := EntryOf(w, id);
    && e.proxy.Some? && e.proxy.value in w.launched
    && var c := w.launched[e.proxy.value].config;
       && c.hostname == config.hostname && c.target == config.target && c.stateDir == config.stateDir && c.loginURL == config.loginURL
       && multiset(c.ports) == multiset(config.ports) && multiset(c.tags) == multiset(config.tags)
       && w.launched[e.proxy.value].authKey == vault(e.preAuthKey)
  }

  /** If the labels ask for ingress and the calls it may need succeed, the service has a proxy
      that was started with the hostname, target, ports, settings and tag the labels ask
      for, and with the key the store names. If they do not, it has none. */
  lemma IngressAsLabelled(w: World, d: Daemon, id: string, s: Script, vault: Vault)
    requires id in w.services && Accepted(w, d, id, s) && KeyInv(w) && Truthful(w, vault) && Issued(vault, s.ingress.key)
    requires s.ingress.wait && Rotates(w, s.ingress)
    ensures var w' := ReconcileService(w, d, id, s).w;
            if WantsIngress(d, w.services[id].spec) then RunsOn(w', id, ConfigOf(d, w.services[id].spec), vault)
            else EntryOf(w', id).proxy.None?
  {
    hide Accepted;
    hide Decide;
    hide ReconcileService;
    hide IngressPass;
    hide EgressStep;
    hide KeyInv;
    hide Truthful;
    hide HashOf;
    hide WantsIngress;
    hide WantsEgress;
    hide ConfigOf;
    hide JobOf;
    hide Rotates;
    var tgt := AcceptedIs(w, d, id, s);
    IngressStays(w, d, id, tgt, s);
    var w1, w' := IngressPass(w, id, tgt, d.cfg, s.ingress).w, ReconcileService(w, d, id, s).w;
    ViewOf(EntryOf(w1, id));
    ViewOf(EntryOf(w', id));
    if tgt.ingress {
      StartExact(w, id, tgt, d.cfg, s.ingress);
      ProxyServesTarget(w, id, tgt, d.cfg, s.ingress, vault);
      assert multiset([tgt.tag]) == multiset{tgt.tag};
    } else {
      IngressIsTeardown(w, id, tgt, d.cfg, s.ingress);
      NoProxyLeft(w, id, s.ingress);
    }
  }

  lemma NoProxyLeft(w: World, id: string, a: IngressAnswers)
    requires a.wait
    ensures EntryOf(TeardownIngress(w, id, a).w, id).proxy.None?
  {
    TornEntry(w, id, a);
    ViewOf(EntryOf(TeardownIngress(w, id, a).w, id));
    ViewOf(EntryOf(w, id));
  }

  /** The egress side finds the cluster and its record as they were. */
  lemma EgressBefore(w: World, d: Daemon, id: string, tgt: Target, a: IngressAnswers)
    requires Coherent(w, d.cfg, id) && Untaken(w.services, id, Lines(w, id))
    ensures var w1 := IngressPass(w, id, tgt, d.cfg, a).w;
            && w1.services == w.services && EntryOf(w1, id).gateways == EntryOf(w, id).gateways
            && Coherent(w1, d.cfg, id) && Untaken(w1.services, id, Lines(w1, id)) && Lines(w1, id) == Lines(w, id)
  {
    hide IngressPass;
    hide Sound;
    hide Describes;
    hide StrictlySorted;
    hide AllTracked;
    hide Linked;
    hide Covers;
    hide WholeHash;
    hide WantHash;
    hide Wanted;
    hide AllGood;
    hide LiveHash;
    hide Runs;
    hide AddrOf;
    hide StoreIndex;
    var w1 := IngressPass(w, id, tgt, d.cfg, a).w;
    IngressKeepsEgress(w, id, tgt, d.cfg, a);
    SameSound(w, w1, d.cfg, id);
    SameTracks(w, w1, id, Lines(w, id));
    forall job: Job | job.cfg == d.cfg && job.app == id && AllGood(job.eg.targets) ensures HonestFor(w1, job) {
      assert HonestFor(w, job);
      WholeHashIsSet(job);
    }
  }

  /** If the labels ask for egress, the calls succeed, and names and lines allow it, then under
      every order every target the label spells has its gateway, and every gateway of the
      service is one of these. */
  lemma EgressAsLabelled(w: World, d: Daemon, id: string, s: Script, tgt: Target, job: Job)
    requires id in w.services && Accepted(w, d, id, s) && Decide(w.services, d, id, s) == Up(tgt)
    requires WantsEgress(d, w.services[id].spec) && job == JobOf(d, id, w.services[id].spec) && d.image != ""
    requires Coherent(w, d.cfg, id) && Untaken(w.services, id, Lines(w, id))
    requires NamesApart(job) && NamesFree(w.services, job) && !Stuck(w, job)
    requires FaultFree(IngressPass(w, id, tgt, d.cfg, s.ingress).w, job, s.egress)
    ensures Targets.Parse(LabelOf(d.rules, w.services[id].spec, "egress.targets")) == Some(job.eg.targets)
    ensures var w' := ReconcileService(w, d, id, s).w;
            && (forall t :: t in job.eg.targets ==> exists g :: Serves(w', job, g, t))
            && (forall g :: Runs(w'.services, id, g) ==> exists t :: t in job.eg.targets && Serves(w', job, g, t))
  {
    hide Accepted;
    hide Decide;
    hide ReconcileService;
    hide IngressPass;
    hide EgressPass;
    hide TeardownEgress;
    hide Coherent;
    hide Untaken;
    hide Lines;
    hide NamesApart;
    hide NamesFree;
    hide FaultFree;
    hide Serves;
    hide MarkedFor;
    hide WantsIngress;
    hide WantsEgress;
    hide ConfigOf;
    hide Stuck;
    hide AllGood;
    hide Targets.Parse;
    LabelSpells(w, d, id, s);
    var same := AcceptedIs(w, d, id, s);
    var w1 := IngressPass(w, id, tgt, d.cfg, s.ingress).w;
    assert job.app == id && job.cfg == d.cfg && job.image == d.image;
    hide JobOf;
    EgressBefore(w, d, id, tgt, s.ingress);
    SameStuck(w, w1, job);
    PassReaches(w1, job, s.egress);
  }

  lemma LabelSpells(w: World, d: Daemon, id: string, s: Script)
    requires id in w.services && Accepted(w, d, id, s) && WantsEgress(d, w.services[id].spec)
    ensures Targets.Parse(LabelOf(d.rules, w.services[id].spec, "egress.targets")) == Some(JobOf(d, id, w.services[id].spec).eg.targets)
  {
    hide IsTrue;
    hide Targets.Parse;
    hide NetworkFine;
    hide TagFine;
    hide Ports;
    hide IsGateway;
    KeyReads(d.rules, w.services[id].spec);
  }

  lemma SameStuck(w: World, w': World, job: Job)
    requires w'.services == w.services && Lines(w', job.app) == Lines(w, job.app)
    ensures Stuck(w', job) <==> Stuck(w, job)
  {
    hide Describes;
    hide Wanted;
    hide WantHash;
    hide Lines;
    forall a ensures StuckAt(w', job, a) <==> StuckAt(w, job, a) {}
  }

  /** If they do not, no gateway is left. */
  lemma NoEgressAsLabelled(w: World, d: Daemon, id: string, s: Script)
    requires id in w.services && Accepted(w, d, id, s) && !WantsEgress(d, w.services[id].spec) && Listed(w, id)
    requires forall t :: SmoothRemove(s.egress.remove(t))
    ensures var w' := ReconcileService(w, d, id, s).w;
            EntryOf(w', id).gateways == [] && forall g :: !Runs(w'.services, id, g)
  {
    hide Accepted;
    hide Decide;
    hide ReconcileService;
    hide IngressPass;
    hide EgressPass;
    hide TeardownEgress;
    hide WantsIngress;
    hide WantsEgress;
    hide ConfigOf;
    hide JobOf;
    hide MarkedFor;
    var tgt := AcceptedIs(w, d, id, s);
    IngressKeepsEgress(w, id, tgt, d.cfg, s.ingress);
    NoGatewayLeft(IngressPass(w, id, tgt, d.cfg, s.ingress).w, id, s.egress.remove);
  }

  lemma NoGatewayLeft(w: World, id: string, remove: string -> RemoveAnswers)
    requires Listed(w, id) && forall t :: SmoothRemove(remove(t))
    ensures var w' := TeardownEgress(w, id, remove).w;
            EntryOf(w', id).gateways == [] && forall g :: !Runs(w'.services, id, g)
  {
    hide RemoveAll;
    hide MarkedFor;
    hide RetiredKeys;
    EgressTeardownExact(w, id, remove);
    var refs := EntryOf(w, id).gateways;
    forall g | Runs(w.services, id, g) ensures g in DeletedIds(refs, remove) {
      var r :| r in refs && r.serviceId == g;
      assert SmoothRemove(remove(r.target));
    }
  }
}
