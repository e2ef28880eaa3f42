/** One app's gateways and their record over whole runs of the daemon: other apps' passes,
    its own passes with any faults, cluster changes elsewhere, shutdowns. From every state so
    reached it is decided exactly whether a fault-free pass converges. */
module Reachability {
  import opened Text
  import opened Targets
  import opened Gateway
  import opened Labels
  import opened World
  import opened Egress
  import opened Reconcile
  import opened Mirror
  import opened Loops
  import opened Convergence
  import opened EgressTheorems
  import opened Orders
  import opened Ledger
  import opened Conservation
  import opened Proxies
  import opened Teardowns
  import opened Congruence
  import opened Independence
  import opened Ownership

  /** Gateways of the app may have vanished; those that run are as they were, up to Docker's
      version counter. */
  ghost predicate NoNewGatewaysOf(v: Services, v': Services, app: string) {
    && (forall s :: Runs(v', app, s) ==> Runs(v, app, s) && v'[s].spec == v[s].spec)
    && (forall s :: Runs(v, app, s) && s in v' ==> Runs(v', app, s))
  }

  ghost predicate SameRecord(e: Entry, e': Entry) {
    && e'.gateways == e.gateways
    && (e'.gatewayHash == e.gatewayHash || e'.gatewayHash == NoSetHash)
  }

  /** A step that is none of the app's: its record stays, its gateways stay or vanish, and
      Docker keeps names unique and never hands out an ID twice. */
  ghost predicate Elsewhere(w: World, w': World, app: string) {
    && NoNewGatewaysOf(w.services, w'.services, app) && SameRecord(EntryOf(w, app), EntryOf(w', app))
    && w.ids <= w'.ids && w'.services.Keys <= w'.ids && UniqueNames(w'.services)
    && (forall s :: s in w'.services ==> s in w.services || s !in w.ids)
  }

  /** What holds between events: sound gateways, a record of them, and no lapsed line whose
      service was taken over. With `whole`, also that no update has stranded a gateway: the
      record is honest and complete. */
  ghost predicate Orderly(w: World, cfg: Config, app: string, whole: bool) {
    && Sound(w, cfg, app) && Recorded(w, app) && Untaken(w.services, app, Lines(w, app))
    && (whole ==> Honest(w, cfg, app) && Complete(w, app))
  }

  // ---------- steps elsewhere ----------

  lemma SoundTransfers(w: World, w': World, cfg: Config, app: string)
    requires Sound(w, cfg, app) && Elsewhere(w, w', app)
    ensures Sound(w', cfg, app)
  {
    hide MarkedFor;
    hide TargetAddr;
    hide Built;
    hide UniqueNames;
  }

  lemma RecordTransfers(w: World, w': World, app: string)
    requires Recorded(w, app) && OnePerAddr(w.services, app) && w.services.Keys <= w.ids && Elsewhere(w, w', app)
    ensures Recorded(w', app) && Lines(w', app) == Lines(w, app)
    ensures Untaken(w.services, app, Lines(w, app)) ==> Untaken(w'.services, app, Lines(w', app))
  {
    hide MarkedFor;
    hide TargetAddr;
    hide LiveHash;
    hide UniqueNames;
    hide StrictlySorted;
    hide StoreIndex;
    forall a | a in Lines(w, app) ensures Tracks(w', app, a, Lines(w, app)[a]) {
      assert Tracks(w, app, a, Lines(w, app)[a]);
    }
  }

  lemma CompleteTransfers(w: World, w': World, app: string)
    requires Complete(w, app) && NoNewGatewaysOf(w.services, w'.services, app) && SameRecord(EntryOf(w, app), EntryOf(w', app))
    ensures Complete(w', app)
  {
    hide MarkedFor;
    hide TargetAddr;
    hide StoreIndex;
  }

  lemma HonestyTransfers(w: World, w': World, cfg: Config, app: string)
    requires Honest(w, cfg, app) && NoNewGatewaysOf(w.services, w'.services, app)
    requires SameRecord(EntryOf(w, app), EntryOf(w', app))
    ensures Honest(w', cfg, app)
  {
    hide MarkedFor;
    hide TargetAddr;
    hide LiveHash;
    hide WantHash;
    hide WholeHash;
    hide Wanted;
    hide AllGood;
    hide StoreIndex;
    forall job: Job | job.cfg == cfg && job.app == app && AllGood(job.eg.targets) ensures HonestFor(w', job) {
      assert HonestFor(w, job);
      WholeHashIsSet(job);
    }
  }

  lemma OrderTransfers(w: World, w': World, cfg: Config, app: string, whole: bool)
    requires Orderly(w, cfg, app, whole) && Elsewhere(w, w', app)
    ensures Orderly(w', cfg, app, whole)
  {
    hide Recorded;
    hide Complete;
    hide Honest;
    hide NoNewGatewaysOf;
    hide SameRecord;
    hide UniqueNames;
    hide OnePerAddr;
    hide AllBuilt;
    hide Untaken;
    hide Lines;
    SoundTransfers(w, w', cfg, app);
    RecordTransfers(w, w', app);
    if whole {
      CompleteTransfers(w, w', app);
      HonestyTransfers(w, w', cfg, app);
    }
  }

  /** An empty record is in order over sound gateways, whatever runs. */
  lemma EmptyRecordOrderly(w: World, cfg: Config, app: string, whole: bool)
    requires Sound(w, cfg, app) && EntryOf(w, app).gateways == [] && EntryOf(w, app).gatewayHash == NoSetHash
    ensures Orderly(w, cfg, app, whole)
  {
    hide Sound;
    hide Recorded;
    hide Honest;
    hide Complete;
    hide Describes;
    hide Lines;
    EmptyRecordCoherent(w, cfg, app);
  }

  // ---------- other apps ----------

  lemma RunsIsMark(v: Services, app: string, s: string)
    ensures Runs(v, app, s) <==> s in v && Mark(v[s].spec) == Some(app)
  {
  }

  /** A pass for another app leaves this one's gateways as they were. */
  lemma OthersLeaveAlone(w: World, w': World, app: string, other: string, owner: Owner)
    requires app != other && Handled(w, w', other, owner)
    ensures NoNewGatewaysOf(w.services, w'.services, app)
  {
    hide Mark;
    hide Runs;
    hide Marked;
    hide UniqueNames;
    forall s
      ensures Runs(w.services, app, s) <==> Runs(w'.services, app, s)
      ensures Runs(w.services, app, s) ==> s in w.services && s in w'.services && w'.services[s] == w.services[s] {
      RunsIsMark(w.services, app, s);
      RunsIsMark(w'.services, app, s);
    }
  }

  lemma OtherPassElsewhere(w: World, d: Daemon, app: string, other: string, s: Script, owner: Owner)
    requires app != other && Owned(w, owner) && AsksForOwn(w, d, other, s, owner) && UniqueNames(w.services)
    ensures Elsewhere(w, ReconcileService(w, d, other, s).w, app)
  {
    hide ReconcileService;
    hide Owned;
    hide AsksForOwn;
    hide UniqueNames;
    hide Mark;
    hide Marked;
    hide NoNewGatewaysOf;
    var w' := ReconcileService(w, d, other, s).w;
    PassKeepsOwnership(w, d, other, s, owner);
    OthersLeaveAlone(w, w', app, other, owner);
    EntryFrame(w, w', other);
  }

  // ---------- the app itself ----------

  lemma SameServices(v: Services, app: string)
    ensures NoNewGatewaysOf(v, v, app)
  {
    hide MarkedFor;
  }

  lemma IngressElsewhere(w: World, w1: World, cfg: Config, app: string)
    requires Sound(w, cfg, app) && EgressKept(w, w1, app)
    ensures Elsewhere(w, w1, app)
  {
    hide OnePerAddr;
    hide AllBuilt;
    hide UniqueNames;
    hide NoNewGatewaysOf;
    SameServices(w.services, app);
  }

  lemma TeardownOrderly(w: World, cfg: Config, app: string, s: Script, whole: bool)
    requires Orderly(w, cfg, app, whole)
    ensures Orderly(Teardown(w, app, s).w, cfg, app, whole)
  {
    hide Teardown;
    hide DeletedIds;
    hide RetiredKeys;
    hide Sound;
    hide Submap;
    hide Recorded;
    hide Honest;
    hide Complete;
    hide Untaken;
    hide Lines;
    var w' := Teardown(w, app, s).w;
    TeardownExact(w, app, s);
    SubmapMinus(w.services, DeletedIds(EntryOf(w, app).gateways, s.egress.remove));
    SubmapSound(w, w', cfg, app);
    EmptyRecordOrderly(w', cfg, app, whole);
  }

  lemma EgressTeardownOrderly(w: World, cfg: Config, app: string, remove: string -> RemoveAnswers, whole: bool)
    requires Orderly(w, cfg, app, whole)
    ensures Orderly(TeardownEgress(w, app, remove).w, cfg, app, whole)
  {
    hide DeletedIds;
    hide RetiredKeys;
    hide Sound;
    hide Submap;
    hide Recorded;
    hide Honest;
    hide Complete;
    hide Untaken;
    hide Lines;
    hide RemoveAll;
    var w' := TeardownEgress(w, app, remove).w;
    if EntryOf(w, app).gateways != [] {
      EgressTeardownExact(w, app, remove);
      SubmapMinus(w.services, DeletedIds(EntryOf(w, app).gateways, remove));
      SubmapSound(w, w', cfg, app);
      EmptyRecordOrderly(w', cfg, app, whole);
    }
  }

  /** If the pass changes anything, the names the job wants can be had in it. With `whole`,
      it also strands no gateway. Whatever else fails in it may fail. */
  ghost predicate GentlePass(w: World, job: Job, ans: Answers, whole: bool) {
    && NamesFit(w, job, ans)
    && (whole ==> NoneStranded(w, job, ans))
  }

  lemma GentlePassOrderly(w: World, job: Job, ans: Answers, whole: bool)
    requires Orderly(w, job.cfg, job.app, whole) && AllGood(job.eg.targets) && GentlePass(w, job, ans, whole)
    ensures Orderly(EgressPass(w, job, ans).w, job.cfg, job.app, whole)
  {
    hide EgressPass;
    hide SlowPath;
    hide Tracked;
    hide FastGate;
    hide Sound;
    hide Recorded;
    hide Honest;
    hide Complete;
    hide NamesHad;
    hide Untaken;
    hide Lines;
    hide NoneStranded;
    hide Unshared;
    hide Usable;
    EgressPassCases(w, job, ans);
    if EgressPass(w, job, ans).w != w {
      UntakenAfter(w, job, ans);
      if whole {
        UntakenIsUsable(w.services, job, Lines(w, job.app));
        UsableIsUnshared(w.services, job, Lines(w, job.app));
        CoherenceKept(w, job, ans);
      }
    }
  }

  ghost predicate GentleOwn(w: World, d: Daemon, app: string, s: Script, whole: bool) {
    var v := Decide(w.services, d, app, s);
    v.Up? && v.target.egress.Some? ==>
      GentlePass(IngressPass(w, app, v.target, d.cfg, s.ingress).w, Job(d.cfg, app, v.target.egress.value, d.image), s.egress, whole)
  }

  lemma DecidedTargetsGood(w: World, d: Daemon, id: string, s: Script)
    requires Decide(w.services, d, id, s).Up?
    ensures var tgt := Decide(w.services, d, id, s).target;
            tgt.egress.Some? ==> AllGood(tgt.egress.value.targets)
  {
    hide ParseLabels;
    hide IsGateway;
    hide AllGood;
    AcceptedTarget(d.rules, w.services[id].spec, s.networks.value);
  }

  lemma OrderlySound(w: World, cfg: Config, app: string, whole: bool)
    requires Orderly(w, cfg, app, whole)
    ensures Sound(w, cfg, app) && w.services.Keys <= w.ids && UniqueNames(w.services)
  {
    hide UniqueNames;
    hide OnePerAddr;
    hide AllBuilt;
    hide Recorded;
    hide Untaken;
  }

  lemma OwnPassOrderly(w: World, d: Daemon, app: string, s: Script, whole: bool)
    requires Orderly(w, d.cfg, app, whole) && GentleOwn(w, d, app, s, whole)
    ensures Orderly(ReconcileService(w, d, app, s).w, d.cfg, app, whole)
  {
    hide ReconcileService;
    hide Decide;
    hide Teardown;
    hide IngressPass;
    hide EgressPass;
    hide TeardownEgress;
    hide Orderly;
    hide GentlePass;
    hide EgressKept;
    hide Elsewhere;
    hide Sound;
    ReconcileDecides(w, d, app, s);
    match Decide(w.services, d, app, s)
    case Skip =>
    case Down => TeardownOrderly(w, d.cfg, app, s, whole);
    case Up(tgt) =>
      var w1 := IngressPass(w, app, tgt, d.cfg, s.ingress).w;
      IngressKeepsEgress(w, app, tgt, d.cfg, s.ingress);
      OrderlySound(w, d.cfg, app, whole);
      IngressElsewhere(w, w1, d.cfg, app);
      OrderTransfers(w, w1, d.cfg, app, whole);
      if tgt.egress.None? {
        EgressTeardownOrderly(w1, d.cfg, app, s.egress.remove, whole);
      } else {
        DecidedTargetsGood(w, d, app, s);
        GentlePassOrderly(w1, Job(d.cfg, app, tgt.egress.value, d.image), s.egress, whole);
      }
  }

  // ---------- runs ----------

  /** Names are separated and nobody else makes or rewrites gateways of this app, though they
      may delete them. Everything else may fail or change; with `whole`, all but the updates
      of this app's running gateways. */
  ghost predicate Gentle(w: World, d: Daemon, ev: Event, owner: Owner, app: string, whole: bool) {
    && FairEvent(w, d, ev, owner)
    && match ev
       case Reconciled(id, s) => id == app ==> GentleOwn(w, d, app, s, whole)
       case SwarmChanged(services, _) =>
         && UniqueNames(services)
         && forall s :: Runs(services, app, s) ==> Runs(w.services, app, s) && services[s].spec == w.services[s].spec
       case Shutdown(_) => true
  }

  ghost predicate AllGentle(w: World, d: Daemon, events: seq<Event>, owner: Owner, app: string, whole: bool)
    decreases events
  {
    events == [] ||
    (Gentle(w, d, events[0], owner, app, whole) && AllGentle(Apply(w, d, events[0]), d, events[1..], owner, app, whole))
  }

  lemma ShutdownOrderly(w: World, cfg: Config, app: string, pick: Picker, whole: bool)
    requires Orderly(w, cfg, app, whole)
    ensures Orderly(CloseAll(w, w.store.Keys, pick), cfg, app, whole)
  {
    hide CloseAll;
    hide Sound;
    hide Orderly;
    var w' := CloseAll(w, w.store.Keys, pick);
    OrderlySound(w, cfg, app, whole);
    CloseAllEmpties(w, w.store.Keys, pick);
    CloseAllOutside(w, w.store.Keys, pick);
    SameSound(w, w', cfg, app);
    EmptyRecordOrderly(w', cfg, app, whole);
  }

  lemma ChangeElsewhere(w: World, d: Daemon, ev: Event, owner: Owner, app: string, whole: bool)
    requires ev.SwarmChanged? && Gentle(w, d, ev, owner, app, whole)
    ensures Elsewhere(w, Apply(w, d, ev), app)
  {
    hide UniqueNames;
    hide Marked;
    hide Mark;
    hide Runs;
    forall s | Runs(w.services, app, s) && s in ev.services ensures Runs(ev.services, app, s) {
      RunsIsMark(w.services, app, s);
      RunsIsMark(ev.services, app, s);
    }
    forall s | Runs(ev.services, app, s) ensures s in ev.services && s in w.services {
      RunsIsMark(w.services, app, s);
      RunsIsMark(ev.services, app, s);
    }
  }

  lemma EventOrderly(w: World, d: Daemon, ev: Event, owner: Owner, app: string, whole: bool)
    requires Owned(w, owner) && Orderly(w, d.cfg, app, whole) && Gentle(w, d, ev, owner, app, whole)
    ensures Orderly(Apply(w, d, ev), d.cfg, app, whole)
  {
    hide ReconcileService;
    hide CloseAll;
    hide Orderly;
    hide Owned;
    hide GentleOwn;
    hide AsksForOwn;
    hide NoNewGatewaysOf;
    hide UniqueNames;
    hide Marked;
    hide Sound;
    hide Elsewhere;
    OrderlySound(w, d.cfg, app, whole);
    match ev
    case Reconciled(id, s) =>
      if id == app {
        OwnPassOrderly(w, d, app, s, whole);
      } else {
        OtherPassElsewhere(w, d, app, id, s, owner);
        OrderTransfers(w, Apply(w, d, ev), d.cfg, app, whole);
      }
    case SwarmChanged(services, ids) =>
      ChangeElsewhere(w, d, ev, owner, app, whole);
      OrderTransfers(w, Apply(w, d, ev), d.cfg, app, whole);
    case Shutdown(pick) => ShutdownOrderly(w, d.cfg, app, pick, whole);
  }

  /** Order in every state a gentle run reaches, failed updates and half removals included;
      coherence as well in every state a run reaches that strands no gateway. */
  lemma {:induction false} OrderOverRun(w: World, d: Daemon, events: seq<Event>, owner: Owner, app: string, whole: bool)
    requires Owned(w, owner) && Orderly(w, d.cfg, app, whole) && AllGentle(w, d, events, owner, app, whole)
    ensures Owned(Run(w, d, events), owner) && Orderly(Run(w, d, events), d.cfg, app, whole)
    decreases events
  {
    hide Apply;
    hide Owned;
    hide Orderly;
    hide FairEvent;
    hide GentleOwn;
    hide NoNewGatewaysOf;
    hide UniqueNames;
    if events != [] {
      EventOrderly(w, d, events[0], owner, app, whole);
      EventKeepsOwnership(w, d, events[0], owner);
      OrderOverRun(Apply(w, d, events[0]), d, events[1..], owner, app, whole);
    }
  }

  /** From every reachable state, exactly when a fault-free egress pass converges in every
      order: if the gate is open, when the record is in order already; if closed, or if no
      update ever stranded a gateway, when the desired names differ, none is taken for good,
      and no desired line is stuck. After a pass without an error the next does nothing. */
  lemma ReachableConverges(w: World, d: Daemon, events: seq<Event>, owner: Owner, whole: bool, job: Job, ans: Answers, later: Answers)
    requires Owned(w, owner) && Orderly(w, d.cfg, job.app, whole) && AllGentle(w, d, events, owner, job.app, whole)
    requires job.cfg == d.cfg && GoodJob(job) && FaultFree(Run(w, d, events), job, ans)
    ensures var w1 := Run(w, d, events);
            var r := EgressPass(w1, job, ans);
            var always := forall pick: Picker :: Converged(EgressPass(w1, job, ans.(pick := pick)).w, job);
            var fit := NamesApart(job) && NamesFree(w1.services, job);
            && (always <==> if GateOpen(w1, job) then InOrder(w1, job) else fit && !Stuck(w1, job))
            && (whole ==> (always <==> fit && !Stuck(w1, job)))
            && (fit ==> r.ok) && (r.ok ==> EgressPass(r.w, job, later) == Step(r.w, later.list))
  {
    hide Run;
    hide Owned;
    hide AllGentle;
    hide NamesApart;
    hide NamesFree;
    hide FaultFree;
    hide EgressPass;
    hide Converged;
    hide Sound;
    hide Recorded;
    hide Honest;
    hide Complete;
    hide Untaken;
    hide Usable;
    hide Unshared;
    hide Lines;
    hide GateOpen;
    hide InOrder;
    hide Stuck;
    OrderOverRun(w, d, events, owner, job.app, whole);
    var w1 := Run(w, d, events);
    UntakenIsUsable(w1.services, job, Lines(w1, job.app));
    UsableIsUnshared(w1.services, job, Lines(w1, job.app));
    ConvergesInEveryOrder(w1, job, ans);
    if whole {
      CoherentConvergesInEveryOrder(w1, job, ans);
    }
    if NamesApart(job) && NamesFree(w1.services, job) {
      ConvergesIff(w1, job, ans);
    }
    if EgressPass(w1, job, ans).ok {
      PassKeeps(w1, job, ans);
      NoErrorIsFinal(w1, job, ans, []);
      OpenIsIdle(EgressPass(w1, job, ans).w, job, later);
    }
  }

  // ---------- egress alone, over gentle runs ----------

  /** The egress-only daemon has a complete record for every app. */
  ghost predicate AllComplete(u: World) { forall app :: Complete(u, app) }

  lemma StrandedSame(w: World, u: World, job: Job, ans: Answers)
    requires NoOrphans(w, job.app) && NoOrphans(u, job.app) && job.eg.targets != [] && SameOutside(w, u)
    requires OutView(EntryOf(w, job.app)) == OutView(EntryOf(u, job.app)) && NoneStranded(w, job, ans)
    ensures NoneStranded(u, job, ans)
  {
    hide Tracked;
    hide FastGate;
    hide NoOrphans;
    hide OutView;
    hide Wanted;
    hide RemoveLoop;
    hide Stranded;
    GateSame(w, u, job, ans.pick);
    var tracked := Tracked(w, job.app, ans.pick);
    SameRemoveLoop(Pass(w, tracked, true), Pass(u, tracked, true), Wanted(job).Keys, tracked.Keys, ans);
    SameStranded(Pruned(w, job, ans), Pruned(u, job, ans), job, Wanted(job).Keys, ans);
  }

  /** Soundness and the record, seen through the egress view. */
  lemma SameOrder(w: World, u: World, cfg: Config, app: string)
    requires Sound(w, cfg, app) && Recorded(w, app) && Untaken(w.services, app, Lines(w, app))
    requires w.services == u.services && w.ids == u.ids && OutView(EntryOf(w, app)) == OutView(EntryOf(u, app))
    ensures Sound(u, cfg, app) && Recorded(u, app) && Untaken(u.services, app, Lines(u, app))
  {
    hide UniqueNames;
    hide OnePerAddr;
    hide AllBuilt;
    hide StrictlySorted;
    hide AllTracked;
    hide Linked;
    hide Untaken;
    hide StoreIndex;
    assert EntryOf(u, app).gateways == EntryOf(w, app).gateways;
    SameSound(w, u, cfg, app);
    SameTracks(w, u, app, Lines(w, app));
  }

  lemma AlonePassComplete(w: World, u: World, job: Job, ans: Answers)
    requires Orderly(w, job.cfg, job.app, true) && Complete(u, job.app) && SameOutside(w, u)
    requires OutView(EntryOf(w, job.app)) == OutView(EntryOf(u, job.app))
    requires AllGood(job.eg.targets) && job.eg.targets != [] && NoneStranded(w, job, ans)
    ensures Complete(EgressPass(u, job, ans).w, job.app)
  {
    hide EgressPass;
    hide SlowPath;
    hide Tracked;
    hide FastGate;
    hide Sound;
    hide Recorded;
    hide Honest;
    hide Complete;
    hide Untaken;
    hide Lines;
    hide Unshared;
    hide Usable;
    hide OutView;
    hide Wanted;
    hide Stranded;
    hide Pruned;
    hide NoOrphans;
    CompleteHasNoOrphans(w, job.app);
    CompleteHasNoOrphans(u, job.app);
    StrandedSame(w, u, job, ans);
    SameOrder(w, u, job.cfg, job.app);
    UntakenIsUsable(u.services, job, Lines(u, job.app));
    UsableIsUnshared(u.services, job, Lines(u, job.app));
    EgressPassCases(u, job, ans);
    if EgressPass(u, job, ans).w != u {
      SlowPathCoherent(u, job, ans);
    }
  }

  lemma EmptyIsComplete(u: World, app: string)
    requires EntryOf(u, app).gatewayHash == NoSetHash
    ensures Complete(u, app)
  {
    hide Covers;
  }

  lemma AloneTeardownComplete(u: World, app: string, remove: string -> RemoveAnswers)
    requires Complete(u, app)
    ensures Complete(TeardownEgress(u, app, remove).w, app) && Complete(Delete(TeardownEgress(u, app, remove).w, app), app)
  {
    hide Complete;
    hide RemoveAll;
    if EntryOf(u, app).gateways != [] {
      EmptyIsComplete(TeardownEgress(u, app, remove).w, app);
    }
    EmptyIsComplete(Delete(TeardownEgress(u, app, remove).w, app), app);
  }

  lemma AloneOwnComplete(w: World, u: World, d: Daemon, app: string, s: Script)
    requires Orderly(w, d.cfg, app, true) && SameEgress(w, u) && Complete(u, app) && GentleOwn(w, d, app, s, true)
    requires u.minted == IngressHalf(w, d, app, s).minted
    ensures Complete(EgressHalf(u, d, app, s), app)
  {
    hide Decide;
    hide IngressPass;
    hide EgressPass;
    hide TeardownEgress;
    hide TeardownIngress;
    hide Orderly;
    hide NoneStranded;
    hide NamesHad;
    hide Complete;
    hide OutView;
    hide Sound;
    hide Elsewhere;
    hide NoOrphans;
    match Decide(w.services, d, app, s)
    case Skip =>
    case Down => AloneTeardownComplete(u, app, s.egress.remove);
    case Up(tgt) =>
      if tgt.egress.None? {
        AloneTeardownComplete(u, app, s.egress.remove);
      } else {
        var w1 := IngressPass(w, app, tgt, d.cfg, s.ingress).w;
        IngressKeepsEgress(w, app, tgt, d.cfg, s.ingress);
        OrderlySound(w, d.cfg, app, true);
        IngressElsewhere(w, w1, d.cfg, app);
        OrderTransfers(w, w1, d.cfg, app, true);
        OrderlyComplete(w, d.cfg, app);
        CompleteHasNoOrphans(w, app);
        OrphansKept(w, w1, app);
        DecidedTargetsGood(w, d, app, s);
        AcceptedHasTargets(w, d, app, s);
        AlonePassComplete(w1, u, Job(d.cfg, app, tgt.egress.value, d.image), s.egress);
      }
  }

  lemma OrderlyComplete(w: World, cfg: Config, app: string)
    requires Orderly(w, cfg, app, true)
    ensures Complete(w, app)
  {
    hide Complete;
    hide Sound;
    hide Recorded;
    hide Untaken;
    hide Honest;
  }

  lemma TeardownEgressFrame(u: World, id: string, remove: string -> RemoveAnswers)
    ensures TeardownEgress(u, id, remove).w.store - {id} == u.store - {id}
  {
    hide RemoveAll;
    RemoveAllStore(u, EntryOf(u, id).gateways, remove);
  }

  lemma EgressHalfFrame(u: World, d: Daemon, id: string, s: Script)
    ensures EgressHalf(u, d, id, s).store - {id} == u.store - {id}
  {
    hide Decide;
    hide EgressPass;
    hide TeardownEgress;
    hide InOnly;
    TeardownEgressFrame(u, id, s.egress.remove);
    var v := Decide(u.services, d, id, s);
    if v.Up? && v.target.egress.Some? {
      EgressPassKeepsProxies(u, Job(d.cfg, id, v.target.egress.value, d.image), s.egress);
    }
  }

  /** Every app is in order, and the run is gentle to each. */
  ghost predicate AllInOrder(w: World, d: Daemon, events: seq<Event>, owner: Owner) {
    && Owned(w, owner)
    && forall app :: Orderly(w, d.cfg, app, true) && AllGentle(w, d, events, owner, app, true)
  }

  lemma AloneStaysComplete(w: World, u: World, d: Daemon, ev: Event, owner: Owner, app: string)
    requires Owned(w, owner) && Orderly(w, d.cfg, app, true) && Gentle(w, d, ev, owner, app, true)
    requires SameEgress(w, u) && Complete(u, app) && SameEgress(Apply(w, d, ev), EgressEvent(u, w, d, ev))
    ensures Complete(EgressEvent(u, w, d, ev), app)
  {
    hide ReconcileService;
    hide IngressHalf;
    hide EgressHalf;
    hide CloseAll;
    hide Orderly;
    hide Owned;
    hide GentleOwn;
    hide AsksForOwn;
    hide NoNewGatewaysOf;
    hide UniqueNames;
    hide Marked;
    hide Mark;
    hide Sound;
    hide Complete;
    hide OutView;
    var u' := EgressEvent(u, w, d, ev);
    OrderlySound(w, d.cfg, app, true);
    match ev
    case Reconciled(id, s) =>
      var u1 := u.(minted := IngressHalf(w, d, id, s).minted);
      SameServices(u.services, app);
      CompleteTransfers(u, u1, app);
      if id == app {
        assert SameEgress(w, u1) by { assert forall i :: EntryOf(u1, i) == EntryOf(u, i); }
        AloneOwnComplete(w, u1, d, app, s);
      } else {
        OtherPassElsewhere(w, d, app, id, s, owner);
        EgressHalfFrame(u1, d, id, s);
        EntryFrame(u1, u', id);
        CompleteTransfers(u1, u', app);
      }
    case SwarmChanged(services, ids) =>
      ChangeElsewhere(w, d, ev, owner, app, true);
      CompleteTransfers(u, u', app);
    case Shutdown(pick) =>
      CloseAllEmpties(u, u.store.Keys, pick);
      EmptyIsComplete(u', app);
  }

  lemma {:induction false} GentleIsUnorphaned(w: World, u: World, d: Daemon, events: seq<Event>, owner: Owner)
    requires AllInOrder(w, d, events, owner) && SameEgress(w, u) && AllComplete(u)
    ensures Unorphaned(u, w, d, events)
    decreases events
  {
    hide Apply;
    hide EgressEvent;
    hide NoOrphans;
    hide SameEgress;
    hide Owned;
    hide Orderly;
    hide Gentle;
    hide FairEvent;
    hide Complete;
    if events != [] {
      var ev := events[0];
      var w', u' := Apply(w, d, ev), EgressEvent(u, w, d, ev);
      if ev.Reconciled? {
        OrderlyComplete(w, d.cfg, ev.id);
        CompleteHasNoOrphans(w, ev.id);
        CompleteHasNoOrphans(u, ev.id);
      }
      EgressEventSame(w, u, d, ev);
      forall app ensures Orderly(w', d.cfg, app, true) && AllGentle(w', d, events[1..], owner, app, true) && Complete(u', app) {
        assert AllGentle(w, d, events, owner, app, true);
        EventOrderly(w, d, ev, owner, app, true);
        AloneStaysComplete(w, u, d, ev, owner, app);
      }
      assert Owned(w', owner) by {
        assert AllGentle(w, d, events, owner, "", true);
        GentleIsFair(w, d, ev, owner, "", true);
        EventKeepsOwnership(w, d, ev, owner);
      }
      GentleIsUnorphaned(w', u', d, events[1..], owner);
    }
  }

  lemma GentleIsFair(w: World, d: Daemon, ev: Event, owner: Owner, app: string, whole: bool)
    requires Gentle(w, d, ev, owner, app, whole)
    ensures FairEvent(w, d, ev, owner)
  {
    hide FairEvent;
    hide GentleOwn;
    hide NoNewGatewaysOf;
    hide UniqueNames;
  }

  /** Over every gentle run in which no update strands a gateway, the gateways, their records
      and hashes are those of a daemon that knows no ingress: only that daemon's first state
      is asked to be complete, as an empty store is. */
  lemma EgressRunsAloneInOrder(w: World, u: World, d: Daemon, events: seq<Event>, owner: Owner)
    requires AllInOrder(w, d, events, owner) && SameEgress(w, u) && AllComplete(u)
    ensures SameEgress(Run(w, d, events), EgressAlone(u, w, d, events))
  {
    hide AllInOrder;
    hide AllComplete;
    hide SameEgress;
    hide Run;
    hide EgressAlone;
    hide Unorphaned;
    GentleIsUnorphaned(w, u, d, events, owner);
    EgressRunsAlone(w, u, d, events);
  }
}
