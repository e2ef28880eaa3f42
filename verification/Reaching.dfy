/** What convergence is for: the app dials a remote name, Docker resolves it to a gateway, and
    that gateway dials the remote target. */
module Reaching {
  import opened Targets
  import opened Gateway
  import opened World
  import opened Egress
  import opened Mirror
  import opened Loops
  import opened Convergence
  import opened EgressTheorems
  import opened Orders

  /** The app's gateway `s` stands in for the target. */
  ghost predicate Serves(w: World, job: Job, s: string, t: EgressTarget) {
    && Runs(w.services, job.app, s)
    && exists authKey :: StandsFor(w.services[s].spec, job.cfg, job.eg, t, job.image, authKey)
  }

  lemma WantSpecServes(w: World, job: Job, s: string, t: EgressTarget, secret: string)
    requires Good(t) && Runs(w.services, job.app, s) && w.services[s].spec == WantSpec(job, t, secret)
    ensures Serves(w, job, s, t)
  {
    hide StandsFor;
    hide MarkedFor;
    SpecStandsFor(job.cfg, job.eg, t, job.app, job.image, secret);
  }

  /** In a converged state every desired target has exactly one gateway that stands in for it,
      every gateway of the app stands in for a desired target, and so the gateways that
      answer to a name on the egress network are exactly those of the targets on that host. */
  lemma ConvergedReaches(w: World, job: Job)
    requires Converged(w, job) && AllGood(job.eg.targets)
    ensures forall t :: t in job.eg.targets ==> exists s :: Serves(w, job, s, t)
    ensures forall s, s', t :: Serves(w, job, s, t) && Serves(w, job, s', t) ==> s == s'
    ensures forall s :: Runs(w.services, job.app, s) ==> exists t :: t in job.eg.targets && Serves(w, job, s, t)
    ensures forall s, h :: Runs(w.services, job.app, s) ==>
              (AnswersTo(w.services[s].spec, job.eg.network, h) <==> exists t :: t in job.eg.targets && t.host == h && Serves(w, job, s, t))
  {
    hide Converged;
    hide Serves;
    hide AnswersTo;
    hide MarkedFor;
    hide Good;
    forall s | Runs(w.services, job.app, s)
      ensures exists t :: t in job.eg.targets && Serves(w, job, s, t) {
      var t := GatewayServes(w, job, s);
    }
    forall t | t in job.eg.targets ensures exists s :: Serves(w, job, s, t) {
      var s := TargetServed(w, job, t);
    }
    forall s, s', t | Serves(w, job, s, t) && Serves(w, job, s', t) ensures s == s' {
      OneServes(w, job, s, s', t);
    }
    forall s, h | Runs(w.services, job.app, s)
      ensures AnswersTo(w.services[s].spec, job.eg.network, h) <==> exists t :: t in job.eg.targets && t.host == h && Serves(w, job, s, t) {
      var t := GatewayServes(w, job, s);
      ServesNames(w, job, s, t, h);
      forall u | Serves(w, job, s, u) ensures u == t { OneTargetEach(w, job, s, t, u); }
    }
  }

  lemma ServesNames(w: World, job: Job, s: string, t: EgressTarget, h: string)
    requires Serves(w, job, s, t)
    ensures s in w.services && (AnswersTo(w.services[s].spec, job.eg.network, h) <==> h == t.host)
  {
    hide AnswersTo;
    hide MarkedFor;
    hide Boot;
  }

  lemma OneTargetEach(w: World, job: Job, s: string, t: EgressTarget, u: EgressTarget)
    requires Serves(w, job, s, t) && Serves(w, job, s, u)
    ensures t == u
  {
    hide AnswersTo;
    hide MarkedFor;
    hide Boot;
    hide Hostname;
    assert [t][0] == t && [u][0] == u;
  }

  lemma GatewayServes(w: World, job: Job, s: string) returns (t: EgressTarget)
    requires Converged(w, job) && AllGood(job.eg.targets) && Runs(w.services, job.app, s)
    ensures t in job.eg.targets && Serves(w, job, s, t) && AddrOf(w.services, s) == Addr(t)
  {
    hide Serves;
    hide MarkedFor;
    hide TargetAddr;
    hide WantSpec;
    hide WantHash;
    hide WholeHash;
    hide Addr;
    hide Good;
    hide AllGood;
    hide StrictlySorted;
    hide OnePerAddr;
    WantedGood(job);
    var a := AddrOf(w.services, s);
    t := Wanted(job)[a];
    var secret :| w.services[s].spec == WantSpec(job, t, secret);
    WantSpecServes(w, job, s, t, secret);
  }

  lemma TargetServed(w: World, job: Job, t: EgressTarget) returns (s: string)
    requires Converged(w, job) && AllGood(job.eg.targets) && t in job.eg.targets
    ensures Serves(w, job, s, t)
  {
    hide Converged;
    hide Serves;
    hide LiveHash;
    hide TargetAddr;
    hide MarkedFor;
    hide WantHash;
    hide Lines;
    hide Covers;
    hide Addr;
    ConvergedOrder(w, job);
    var a := Addr(t);
    assert a in Wanted(job);
    s := Lines(w, job.app)[a].serviceId;
    assert Describes(w.services, job.app, a, Lines(w, job.app)[a]);
    var u := GatewayServes(w, job, s);
    AddrInjective(t, u);
  }

  lemma OneServes(w: World, job: Job, s: string, s': string, t: EgressTarget)
    requires Converged(w, job) && AllGood(job.eg.targets) && Serves(w, job, s, t) && Serves(w, job, s', t)
    ensures s == s'
  {
    hide StandsFor;
    hide TargetAddr;
    hide MarkedFor;
    assert Runs(w.services, job.app, s) && Runs(w.services, job.app, s');
    var u := GatewayServes(w, job, s);
    var u' := GatewayServes(w, job, s');
    hide Serves;
    OneTargetEach(w, job, s, t, u);
    OneTargetEach(w, job, s', t, u');
    hide Addr;
    assert OnePerAddr(w.services, job.app);
  }

  /** So after a fault-free pass from a coherent state, whatever the order, the app reaches
      every target it asks for, where names and lines allow convergence at all. */
  lemma PassReaches(w: World, job: Job, ans: Answers)
    requires Coherent(w, job.cfg, job.app) && Untaken(w.services, job.app, Lines(w, job.app)) && GoodJob(job) && FaultFree(w, job, ans)
    requires NamesApart(job) && NamesFree(w.services, job) && !Stuck(w, job)
    ensures var w' := EgressPass(w, job, ans).w;
            && (forall t :: t in job.eg.targets ==> exists s :: Serves(w', job, s, t))
            && (forall s :: Runs(w'.services, job.app, s) ==> exists t :: t in job.eg.targets && Serves(w', job, s, t))
  {
    hide Coherent;
    hide Untaken;
    hide Lines;
    hide NamesApart;
    hide NamesFree;
    hide Stuck;
    hide FaultFree;
    hide EgressPass;
    hide Converged;
    hide Serves;
    hide MarkedFor;
    CoherentConvergesInEveryOrder(w, job, ans);
    assert Converged(EgressPass(w, job, ans.(pick := ans.pick)).w, job) && ans.(pick := ans.pick) == ans;
    ConvergedReaches(EgressPass(w, job, ans).w, job);
  }
}
