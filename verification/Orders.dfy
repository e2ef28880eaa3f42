/** Go ranges over a map in any order. Whether a fault-free pass converges in every order is
    decided by the names: a create that comes too early adopts the gateway of another
    desired target, and an update that comes too early is refused. */
module Orders {
  import opened Targets
  import opened Gateway
  import opened World
  import opened Egress
  import opened Mirror
  import opened Loops
  import opened Convergence
  import opened EgressTheorems
  import opened FailedUpdates
  import opened NameClashes
  import Keys

  // ---------- two lines on one service ----------

  lemma CreateGrows(w: World, job: Job, t: EgressTarget, a: CreateAnswers, pick: Picker)
    ensures w.services.Keys <= CreateGateway(w, job, t, a, pick).0.services.Keys
  {
    hide WantSpec;
    hide WantHash;
    hide Addr;
  }

  lemma UpdateGrows(w: World, job: Job, t: EgressTarget, ref: GatewayRef, a: UpdateAnswers)
    ensures var (w', r) := UpdateGateway(w, job, t, ref, a);
            && w.services.Keys <= w'.services.Keys
            && (r.Vanished? ==> ref.serviceId !in w.services)
            && (r.Updated? ==> r.ref.serviceId == ref.serviceId)
  {
    hide WantSpec;
    hide WantHash;
    hide Addr;
    hide Named;
  }

  /** The put loop deletes nothing and moves no line but the target's own; a line whose
      service runs keeps it or goes. */
  lemma PutOneMoves(p: Pass, job: Job, t: EgressTarget, a: PutAnswers, pick: Picker)
    ensures var p' := PutOne(p, job, t, a, pick);
            && p.w.services.Keys <= p'.w.services.Keys
            && (Addr(t) in p.tracked && p.tracked[Addr(t)].serviceId in p.w.services && Addr(t) in p'.tracked ==>
                  p'.tracked[Addr(t)].serviceId == p.tracked[Addr(t)].serviceId)
  {
    hide WantHash;
    hide CreateGateway;
    hide UpdateGateway;
    hide Addr;
    CreateGrows(p.w, job, t, a.create, pick);
    if Addr(t) in p.tracked {
      var (w', r) := UpdateGateway(p.w, job, t, p.tracked[Addr(t)], a.update);
      UpdateGrows(p.w, job, t, p.tracked[Addr(t)], a.update);
      CreateGrows(w', job, t, a.create, pick);
    }
  }

  lemma {:induction false} PutLoopLeaves(p: Pass, job: Job, todo: set<string>, ans: Answers, a: string)
    requires todo <= Wanted(job).Keys && a !in todo
    ensures var p' := PutLoop(p, job, Wanted(job), todo, ans);
            (a in p'.tracked <==> a in p.tracked) && (a in p.tracked ==> p'.tracked[a] == p.tracked[a])
    decreases todo
  {
    hide PutOne;
    hide Wanted;
    hide Addr;
    if todo != {} {
      var c := ans.pick(todo);
      WantedAddr(job);
      Keys.PutOneOthers(p, job, Wanted(job)[c], ans.put(c), ans.pick);
      PutLoopLeaves(PutOne(p, job, Wanted(job)[c], ans.put(c), ans.pick), job, todo - {c}, ans, a);
    }
  }

  /** Once the lines of `a` and `b` name one running service, they do so at the end, or the
      line of `b` is gone. */
  lemma {:induction false} TwinLines(p: Pass, job: Job, todo: set<string>, ans: Answers, b: string, s: string)
    requires todo <= Wanted(job).Keys && s in p.w.services
    requires b in todo ==> b in p.tracked
    requires b in p.tracked ==> p.tracked[b].serviceId == s
    ensures var p' := PutLoop(p, job, Wanted(job), todo, ans);
            b in p'.tracked ==> p'.tracked[b].serviceId == s
    decreases todo
  {
    hide PutOne;
    hide Wanted;
    hide Addr;
    if todo != {} {
      var c := ans.pick(todo);
      WantedAddr(job);
      Keys.PutOneOthers(p, job, Wanted(job)[c], ans.put(c), ans.pick);
      PutOneMoves(p, job, Wanted(job)[c], ans.put(c), ans.pick);
      TwinLines(PutOne(p, job, Wanted(job)[c], ans.put(c), ans.pick), job, todo - {c}, ans, b, s);
    }
  }

  lemma TwinsNotConverged(w: World, job: Job, a: string, b: string)
    requires a != b && a in Wanted(job) && b in Wanted(job)
    requires a in Lines(w, job.app) && b in Lines(w, job.app) ==> Lines(w, job.app)[a].serviceId == Lines(w, job.app)[b].serviceId
    ensures !Converged(w, job)
  {
    hide Converged;
    hide Wanted;
    hide WantHash;
    hide WholeHash;
    hide LiveHash;
    hide TargetAddr;
    hide MarkedFor;
    hide Lines;
    hide Covers;
    if Converged(w, job) {
      ConvergedOrder(w, job);
    }
  }

  lemma MissingNotConverged(w: World, job: Job, a: string)
    requires a in Wanted(job) && a !in Lines(w, job.app)
    ensures !Converged(w, job)
  {
    hide Converged;
    hide Wanted;
    hide WantHash;
    hide WholeHash;
    hide Describes;
    hide Lines;
    hide Covers;
    if Converged(w, job) {
      ConvergedOrder(w, job);
    }
  }

  // ---------- a taken name, and the order that trips over it ----------

  /** Service `s` holds the name address `a` wants and will not give it up: it is the app's
      gateway for another desired address, or none of the app's while the app has one at `a`. */
  ghost predicate Taken(v: Services, job: Job, a: string, s: string) {
    && a in Wanted(job) && s in v && v[s].spec.name == WantName(job, Wanted(job)[a])
    && if Runs(v, job.app, s) then AddrOf(v, s) != a && AddrOf(v, s) in Wanted(job)
       else exists g :: Runs(v, job.app, g) && AddrOf(v, g) == a
  }

  lemma NotFreeIsTaken(v: Services, job: Job)
    ensures NamesFree(v, job) <==> forall a, s :: !Taken(v, job, a, s)
  {
    hide WantName;
    hide TargetAddr;
    hide MarkedFor;
    hide Wanted;
    if NamesFree(v, job) {
      forall a, s ensures !Taken(v, job, a, s) {}
    } else {
      var a, s :| a in Wanted(job) && s in v && v[s].spec.name == WantName(job, Wanted(job)[a]) &&
        !(if Runs(v, job.app, s) then AddrOf(v, s) == a || AddrOf(v, s) !in Wanted(job)
          else forall g :: Runs(v, job.app, g) ==> AddrOf(v, g) != a);
      assert Taken(v, job, a, s);
    }
  }

  /** A diff that starts with address `a`. */
  ghost predicate StartsAt(w: World, job: Job, ans: Answers, a: string) {
    && Sound(w, job.cfg, job.app) && Recorded(w, job.app) && Untaken(w.services, job.app, Lines(w, job.app))
    && GoodJob(job) && FaultFree(w, job, ans) && a in Wanted(job) && ans.pick(Wanted(job).Keys) == a
  }

  lemma DiffedIs(w: World, job: Job, ans: Answers, a: string)
    requires StartsAt(w, job, ans, a)
    ensures var p1 := PutOne(Pruned(w, job, ans), job, Wanted(job)[a], ans.put(a), ans.pick);
            Diffed(w, job, ans) == PutLoop(p1, job, Wanted(job), Wanted(job).Keys - {a}, ans)
  {
    hide Pruned;
    hide PutOne;
    hide Wanted;
    hide Sound;
    hide Recorded;
    hide Untaken;
    hide Lines;
    hide FaultFree;
  }

  /** What the removals leave: the holder, the app's gateways for desired addresses, and
      their lines. */
  lemma PrunedTaken(w: World, job: Job, ans: Answers, a: string, s: string)
    requires StartsAt(w, job, ans, a) && Taken(w.services, job, a, s)
    ensures var p := Pruned(w, job, ans);
            && Reconciling(p, job.cfg, job.app, {}) && Untaken(p.w.services, job.app, p.tracked)
            && Taken(p.w.services, job, a, s)
            && SmoothPuts(p.w, Wanted(job).Keys, ans)
  {
    hide Sound;
    hide Recorded;
    hide Untaken;
    hide Lines;
    hide Pruned;
    hide Tracked;
    hide Wanted;
    hide WantName;
    hide TargetAddr;
    hide MarkedFor;
    hide RemovedIds;
    hide Reconciling;
    hide SmoothPuts;
    hide SmoothRemoves;
    hide Unshared;
    hide Usable;
    var p := Pruned(w, job, ans);
    PrunedKeeps(w, job, ans);
    PrunedUsable(w, job, ans);
    SmoothSame(w, p.w, Wanted(job).Keys, ans);
    RemovedIff(w, job, ans, s);
    forall g | Runs(w.services, job.app, g) && AddrOf(w.services, g) == a ensures Runs(p.w.services, job.app, g) && AddrOf(p.w.services, g) == a {
      RemovedIff(w, job, ans, g);
    }
  }

  /** If the app has a gateway at `a`, its line is outdated and the update is refused. */
  lemma TakenStrands(p: Pass, job: Job, ans: Answers, a: string, s: string, g: string)
    requires Reconciling(p, job.cfg, job.app, {}) && AllGood(job.eg.targets) && Taken(p.w.services, job, a, s)
    requires Runs(p.w.services, job.app, g) && AddrOf(p.w.services, g) == a
    ensures a !in PutOne(p, job, Wanted(job)[a], ans.put(a), ans.pick).tracked
  {
    hide WantName;
    hide WantHash;
    hide WantSpec;
    hide TargetAddr;
    hide LiveHash;
    hide MarkedFor;
    hide Wanted;
    hide UpdateGateway;
    hide CreateInto;
    hide Addr;
    hide Good;
    hide AllGood;
    hide SmoothUpdate;
    hide Built;
    WantedGood(job);
    var t := Wanted(job)[a];
    assert a in p.tracked;
    hide Reconciling;
    OnlyAt(p, job.cfg, job.app, {}, a);
    assert p.tracked[a].serviceId == g && Describes(p.w.services, job.app, a, p.tracked[a]) && g != s;
    ReconcilingSound(p, job.cfg, job.app, {});
    if p.tracked[a].hash == WantHash(job, t) {
      BuiltOne(p.w, job.cfg, job.app, g);
      HashPinsSpec(job, t, p.w.services[g].spec);
      var secret :| p.w.services[g].spec == WantSpec(job, t, secret);
      WantSpecName(job, t, secret);
      SoundUnique(p.w, job.cfg, job.app);
      assert false;
    }
    assert s in Named(p.w, WantName(job, t));
    UpdatedIff(p.w, job, t, p.tracked[a], ans.put(a).update);
    UpdateGrows(p.w, job, t, p.tracked[a], ans.put(a).update);
  }

  lemma BuiltOne(w: World, cfg: Config, app: string, s: string)
    requires Sound(w, cfg, app) && Runs(w.services, app, s)
    ensures Built(cfg, app, w.services[s].spec)
  {
    hide UniqueNames;
    hide OnePerAddr;
    hide Built;
  }

  /** If it has none there and the line is not up to date, the create takes the other desired
      address's gateway. */
  lemma TakenAdopts(p: Pass, job: Job, ans: Answers, a: string, s: string)
    requires Reconciling(p, job.cfg, job.app, {}) && Untaken(p.w.services, job.app, p.tracked) && AllGood(job.eg.targets)
    requires Taken(p.w.services, job, a, s) && NothingAt(p.w.services, job.app, a) && SmoothPuts(p.w, Wanted(job).Keys, ans)
    requires a in p.tracked ==> p.tracked[a].hash != WantHash(job, Wanted(job)[a])
    ensures s in p.w.services
    ensures var b := AddrOf(p.w.services, s);
            var p1 := PutOne(p, job, Wanted(job)[a], ans.put(a), ans.pick);
            && b != a && b in Wanted(job) && b in p1.tracked && p1.tracked[b].serviceId == s
            && a in p1.tracked && p1.tracked[a].serviceId == s && s in p1.w.services
  {
    hide WantName;
    hide WantHash;
    hide TargetAddr;
    hide LiveHash;
    hide MarkedFor;
    hide Wanted;
    hide UpdateGateway;
    hide CreateInto;
    hide Addr;
    hide Good;
    hide AllGood;
    hide SmoothUpdate;
    hide SmoothCreate;
    hide Apart;
    hide Placed;
    hide Adopts;
    WantedGood(job);
    var t := Wanted(job)[a];
    var b := AddrOf(p.w.services, s);
    assert Runs(p.w.services, job.app, s) && b in p.tracked;
    hide Reconciling;
    OnlyAt(p, job.cfg, job.app, {}, b);
    ReconcilingSound(p, job.cfg, job.app, {});
    hide Sound;
    Keys.PutOneOthers(p, job, t, ans.put(a), ans.pick);
    SmoothAdopts(p.w, ans.put(a).create);
    if a in p.tracked {
      UpdateNeverFails(p.w, job, t, p.tracked[a], ans.put(a).update);
      UpdateOutcomeVanished(p.w, job, t, p.tracked[a], ans.put(a).update);
      CreateTakesOver(Pass(p.w, p.tracked - {a}, p.ok), job, t, ans.put(a).create, ans.pick, s);
    } else {
      CreateTakesOver(p, job, t, ans.put(a).create, ans.pick, s);
    }
  }

  lemma UpdateOutcomeVanished(w: World, job: Job, t: EgressTarget, ref: GatewayRef, a: UpdateAnswers)
    ensures UpdateGateway(w, job, t, ref, a).1.Vanished? ==> UpdateGateway(w, job, t, ref, a).0 == w
  {
    hide WantSpec;
    hide WantHash;
    hide Addr;
    hide Named;
  }

  /** The order that starts with an address whose name is taken does not converge. */
  lemma TakenNameTrips(w: World, job: Job, ans: Answers, a: string, s: string)
    requires StartsAt(w, job, ans, a) && Taken(w.services, job, a, s) && !GateOpen(w, job)
    ensures !Converged(EgressPass(w, job, ans).w, job)
  {
    hide Sound;
    hide Recorded;
    hide Untaken;
    hide Lines;
    hide Pruned;
    hide Diffed;
    hide Tracked;
    hide SlowPath;
    hide FastGate;
    hide EgressPass;
    hide Wanted;
    hide WantName;
    hide WantHash;
    hide WholeHash;
    hide Describes;
    hide MarkedFor;
    hide TargetAddr;
    hide Reconciling;
    hide SmoothPuts;
    hide SmoothRemoves;
    hide Unshared;
    hide Usable;
    hide Taken;
    hide Covers;
    hide Converged;
    hide PutOne;
    hide GateOpen;
    hide AllGood;
    hide Stranded;
    var w', p := EgressPass(w, job, ans).w, Pruned(w, job, ans);
    GateIsOpen(w, job, ans.pick);
    EgressPassCases(w, job, ans);
    UntakenIsUsable(w.services, job, Lines(w, job.app));
    UsableIsUnshared(w.services, job, Lines(w, job.app));
    SlowPathKeeps(w, job, ans);
    PrunedTaken(w, job, ans, a, s);
    DiffedIs(w, job, ans, a);
    var p1 := PutOne(p, job, Wanted(job)[a], ans.put(a), ans.pick);
    var rest := Wanted(job).Keys - {a};
    PutLoopLeaves(p1, job, rest, ans, a);
    if NothingAt(p.w.services, job.app, a) {
      if a in p.tracked && p.tracked[a].hash == WantHash(job, Wanted(job)[a]) {
        DeadLineTrips(w, job, ans, a);
      } else {
        TakenAdopts(p, job, ans, a, s);
        var b := AddrOf(p.w.services, s);
        TwinLines(p1, job, rest, ans, b, s);
        TwinsNotConverged(w', job, a, b);
      }
    } else {
      var g :| Runs(p.w.services, job.app, g) && AddrOf(p.w.services, g) == a;
      TakenStrands(p, job, ans, a, s, g);
      MissingNotConverged(w', job, a);
    }
  }

  lemma DeadLineTrips(w: World, job: Job, ans: Answers, a: string)
    requires StartsAt(w, job, ans, a) && a in Pruned(w, job, ans).tracked
    requires Pruned(w, job, ans).tracked[a].hash == WantHash(job, Wanted(job)[a])
    requires NothingAt(Pruned(w, job, ans).w.services, job.app, a)
    ensures !Converged(EgressPass(w, job, ans).w, job)
  {
    hide Sound;
    hide Recorded;
    hide Untaken;
    hide Lines;
    hide Pruned;
    hide Tracked;
    hide EgressPass;
    hide Wanted;
    hide WantHash;
    hide LiveHash;
    hide TargetAddr;
    hide MarkedFor;
    hide Reconciling;
    hide RemovedIds;
    hide SmoothPuts;
    hide SmoothRemoves;
    hide Unshared;
    hide Usable;
    hide Covers;
    hide Converged;
    hide AllTracked;
    hide AllGood;
    var p := Pruned(w, job, ans);
    PrunedKeeps(w, job, ans);
    TrackedMirrors(w, job.cfg, job.app, ans.pick);
    forall g | Runs(w.services, job.app, g) ensures AddrOf(w.services, g) != a {
      RemovedIff(w, job, ans, g);
      assert g in p.w.services ==> Runs(p.w.services, job.app, g);
    }
    assert a in Lines(w, job.app) && Lines(w, job.app)[a] == p.tracked[a];
    UntakenIsUsable(w.services, job, Lines(w, job.app));
    UsableIsUnshared(w.services, job, Lines(w, job.app));
    DeadLinePass(w, job, ans, a);
    VacantNotConverged(EgressPass(w, job, ans).w, job, a);
  }

  // ---------- every order ----------

  /** The order that takes `a` first and otherwise goes by `pick`. */
  function First(a: string, pick: Picker): Picker {
    (s: set<string>) => if a in s then a else pick(s)
  }

  lemma SameFaults(w: World, job: Job, ans: Answers, pick: Picker)
    requires FaultFree(w, job, ans)
    ensures FaultFree(w, job, ans.(pick := pick))
  {
    hide SmoothUpdate;
    hide SmoothCreate;
    hide Wanted;
  }

  lemma TakenIsWanted(v: Services, job: Job, a: string, s: string)
    requires Taken(v, job, a, s)
    ensures a in Wanted(job)
  {
    hide Wanted;
    hide WantName;
    hide Runs;
    hide AddrOf;
  }

  /** Exactly when a fault-free pass converges whatever order the maps are ranged over: if
      the gate is open, when the record is in order already; if it is closed, when the
      desired names differ, none is taken for good, and no desired line is stuck. */
  lemma ConvergesInEveryOrder(w: World, job: Job, ans: Answers)
    requires Sound(w, job.cfg, job.app) && Recorded(w, job.app) && Untaken(w.services, job.app, Lines(w, job.app))
    requires GoodJob(job) && FaultFree(w, job, ans)
    ensures (forall pick: Picker :: Converged(EgressPass(w, job, ans.(pick := pick)).w, job)) <==>
            if GateOpen(w, job) then InOrder(w, job)
            else NamesApart(job) && NamesFree(w.services, job) && !Stuck(w, job)
  {
    hide Sound;
    hide Recorded;
    hide Untaken;
    hide Lines;
    hide EgressPass;
    hide Converged;
    hide GateOpen;
    hide InOrder;
    hide NamesApart;
    hide NamesFree;
    hide Stuck;
    hide Usable;
    hide Unshared;
    hide Wanted;
    hide AllGood;
    hide SmoothPuts;
    hide SmoothRemoves;
    hide Taken;
    UntakenIsUsable(w.services, job, Lines(w, job.app));
    UsableIsUnshared(w.services, job, Lines(w, job.app));
    if GateOpen(w, job) {
      forall pick: Picker ensures Converged(EgressPass(w, job, ans.(pick := pick)).w, job) <==> InOrder(w, job) {
        OpenIsIdle(w, job, ans.(pick := pick));
        OpenConverges(w, job);
      }
      assert Converged(EgressPass(w, job, ans.(pick := ans.pick)).w, job) <==> InOrder(w, job);
    } else {
      if forall pick: Picker :: Converged(EgressPass(w, job, ans.(pick := pick)).w, job) {
        assert Converged(EgressPass(w, job, ans.(pick := ans.pick)).w, job);
        assert ans.(pick := ans.pick) == ans;
        PassKeeps(w, job, ans);
        SoundUnique(EgressPass(w, job, ans).w, job.cfg, job.app);
        SharedNameNeverConverges(EgressPass(w, job, ans).w, job);
        NoNameTaken(w, job, ans);
        ConvergesIff(w, job, ans);
      }
      if NamesApart(job) && NamesFree(w.services, job) && !Stuck(w, job) {
        forall pick: Picker ensures Converged(EgressPass(w, job, ans.(pick := pick)).w, job) {
          SameFaults(w, job, ans, pick);
          ConvergesIff(w, job, ans.(pick := pick));
        }
      }
    }
  }

  lemma NoNameTaken(w: World, job: Job, ans: Answers)
    requires Sound(w, job.cfg, job.app) && Recorded(w, job.app) && Untaken(w.services, job.app, Lines(w, job.app))
    requires GoodJob(job) && FaultFree(w, job, ans) && !GateOpen(w, job)
    requires forall pick: Picker :: Converged(EgressPass(w, job, ans.(pick := pick)).w, job)
    ensures NamesFree(w.services, job)
  {
    hide Sound;
    hide Recorded;
    hide Untaken;
    hide Lines;
    hide EgressPass;
    hide Converged;
    hide GateOpen;
    hide NamesFree;
    hide Wanted;
    hide AllGood;
    hide SmoothPuts;
    hide SmoothRemoves;
    hide Taken;
    hide FaultFree;
    NotFreeIsTaken(w.services, job);
    if a, s :| Taken(w.services, job, a, s) {
      var ans' := ans.(pick := First(a, ans.pick));
      SameFaults(w, job, ans, First(a, ans.pick));
      TakenIsWanted(w.services, job, a, s);
      assert StartsAt(w, job, ans', a);
      TakenNameTrips(w, job, ans', a, s);
      assert false;
    }
  }

  /** Converged gateways bear the wanted names, so no name is taken. */
  lemma ConvergedFree(w: World, job: Job)
    requires UniqueNames(w.services) && Converged(w, job)
    ensures NamesFree(w.services, job)
  {
    hide Converged;
    hide Wanted;
    hide WantName;
    hide WantHash;
    hide WholeHash;
    hide LiveHash;
    hide TargetAddr;
    hide MarkedFor;
    hide Lines;
    hide Covers;
    ConvergedOrder(w, job);
    forall a, s | a in Wanted(job) && s in w.services && w.services[s].spec.name == WantName(job, Wanted(job)[a])
      ensures Runs(w.services, job.app, s) && AddrOf(w.services, s) == a {
      var g := Lines(w, job.app)[a].serviceId;
      assert Describes(w.services, job.app, a, Lines(w, job.app)[a]);
      NamedAsWanted(w, job, g);
    }
  }

  /** Convergence in every order, from a coherent state: exactly if the desired names differ,
      none is taken for good, and no desired line is stuck. */
  lemma CoherentConvergesInEveryOrder(w: World, job: Job, ans: Answers)
    requires Coherent(w, job.cfg, job.app) && Untaken(w.services, job.app, Lines(w, job.app))
    requires GoodJob(job) && FaultFree(w, job, ans)
    ensures (forall pick: Picker :: Converged(EgressPass(w, job, ans.(pick := pick)).w, job)) <==>
            NamesApart(job) && NamesFree(w.services, job) && !Stuck(w, job)
  {
    hide Sound;
    hide Recorded;
    hide Honest;
    hide Complete;
    hide Untaken;
    hide Lines;
    hide EgressPass;
    hide Converged;
    hide GateOpen;
    hide InOrder;
    hide NamesApart;
    hide NamesFree;
    hide Stuck;
    hide FaultFree;
    hide AllGood;
    hide UniqueNames;
    ConvergesInEveryOrder(w, job, ans);
    if GateOpen(w, job) {
      CoherentOrder(w, job);
      OpenConverges(w, job);
      if InOrder(w, job) {
        SoundUnique(w, job.cfg, job.app);
        SharedNameNeverConverges(w, job);
        ConvergedFree(w, job);
      }
    }
  }

  // ---------- a pass without an error is the last to change anything ----------

  lemma {:induction false} RemoveLoopOk(p: Pass, keep: set<string>, todo: set<string>, ans: Answers)
    requires todo <= p.tracked.Keys && RemoveLoop(p, keep, todo, ans).ok
    ensures p.ok && RemoveLoop(p, keep, todo, ans).tracked.Keys <= p.tracked.Keys - (todo - keep)
    decreases todo
  {
    hide RemoveGateway;
    if todo != {} {
      var addr := ans.pick(todo);
      RemoveLoopOk(if addr in keep then p else RemoveOne(p, addr, ans.remove(addr)), keep, todo - {addr}, ans);
    }
  }

  lemma PutOneOk(p: Pass, job: Job, t: EgressTarget, a: PutAnswers, pick: Picker)
    requires PutOne(p, job, t, a, pick).ok
    ensures p.ok && Addr(t) in PutOne(p, job, t, a, pick).tracked && Strands(p, job, t, a) == {}
  {
    hide CreateGateway;
    hide UpdateGateway;
    hide WantHash;
    hide Addr;
  }

  lemma {:induction false} PutLoopOk(p: Pass, job: Job, todo: set<string>, ans: Answers)
    requires todo <= Wanted(job).Keys && PutLoop(p, job, Wanted(job), todo, ans).ok
    ensures p.ok && todo <= PutLoop(p, job, Wanted(job), todo, ans).tracked.Keys && Stranded(p, job, todo, ans) == {}
    decreases todo
  {
    hide PutOne;
    hide Wanted;
    hide Addr;
    hide Strands;
    if todo != {} {
      var c := ans.pick(todo);
      var p1 := PutOne(p, job, Wanted(job)[c], ans.put(c), ans.pick);
      WantedAddr(job);
      PutLoopOk(p1, job, todo - {c}, ans);
      PutOneOk(p, job, Wanted(job)[c], ans.put(c), ans.pick);
      PutLoopLeaves(p1, job, todo - {c}, ans, c);
    }
  }

  lemma DiffWithoutError(w: World, job: Job, ans: Answers)
    requires Sound(w, job.cfg, job.app) && Recorded(w, job.app) && AllGood(job.eg.targets)
    requires Unshared(w.services, job, Lines(w, job.app)) && SlowPath(w, job, Tracked(w, job.app, ans.pick), ans).ok
    ensures var w' := SlowPath(w, job, Tracked(w, job.app, ans.pick), ans).w;
            && Coherent(w', job.cfg, job.app) && GateOpen(w', job)
            && Diffed(w, job, ans).tracked.Keys == Wanted(job).Keys
  {
    hide Sound;
    hide Recorded;
    hide Unshared;
    hide Lines;
    hide SlowPath;
    hide Tracked;
    hide RemoveLoop;
    hide PutLoop;
    hide Wanted;
    hide WantHash;
    hide WholeHash;
    hide Stranded;
    hide Covers;
    hide Honest;
    hide Complete;
    hide AllGood;
    hide RemovedIds;
    hide Reconciling;
    hide LiveAddrs;
    SlowPathIs(w, job, ans);
    var tracked, p1, p := Tracked(w, job.app, ans.pick), Pruned(w, job, ans), Diffed(w, job, ans);
    PutLoopOk(p1, job, Wanted(job).Keys, ans);
    RemoveLoopOk(Pass(w, tracked, true), Wanted(job).Keys, tracked.Keys, ans);
    DiffedKeeps(w, job, ans);
    SlowPathKeeps(w, job, ans);
    SlowPathCoherent(w, job, ans);
    forall a | a in p.tracked ensures a in Wanted(job) {
      assert a in p.tracked - Wanted(job).Keys <==> a in p1.tracked - Wanted(job).Keys;
    }
    CoversAddresses(SlowPath(w, job, tracked, ans).w, job.app);
  }

  /** A pass that reports no error is final, whatever the names and the order: no later pass
      with the same labels changes anything. It has converged exactly if every line it
      recorded has its gateway. */
  lemma NoErrorIsFinal(w: World, job: Job, ans: Answers, script: seq<Answers>)
    requires Sound(w, job.cfg, job.app) && Recorded(w, job.app) && AllGood(job.eg.targets)
    requires Unshared(w.services, job, Lines(w, job.app)) && EgressPass(w, job, ans).ok
    ensures var w' := EgressPass(w, job, ans).w;
            && Passes(w', job, script) == w' && GateOpen(w', job)
            && (Converged(w', job) <==> InOrder(w', job))
  {
    hide Sound;
    hide Recorded;
    hide Unshared;
    hide Lines;
    hide SlowPath;
    hide Tracked;
    hide FastGate;
    hide Wanted;
    hide Converged;
    hide InOrder;
    hide GateOpen;
    hide Honest;
    hide Complete;
    hide AllGood;
    hide Passes;
    hide Diffed;
    var w' := EgressPass(w, job, ans).w;
    GateIsOpen(w, job, ans.pick);
    WantedIs(job);
    if GateOpen(w, job) {
      OpenPass(w, job, ans);
    } else {
      DiffWithoutError(w, job, ans);
    }
    OpenGateIsForever(w', job, script);
    OpenConverges(w', job);
  }

  // ---------- a relabelled hostname ----------

  /** A hyphen moved from the host to the hostname leaves the name as it was. */
  lemma HyphenClash(cfg: Config, base: string, part: string, t: EgressTarget, u: EgressTarget)
    requires t.host == part + "-" + u.host && Short(base, t)
    ensures ServiceName(cfg, base, t) == ServiceName(cfg, base + "-" + part, u)
  {
    assert base + "-" + (part + "-" + u.host) == base + "-" + part + "-" + u.host;
  }

  /** An app converged on `t` alone is relabelled to `t` and `u`, where `u` now wants the name
      the gateway of `t` bears and the new name of `t` is free. */
  ghost predicate Relabelled(w: World, was: Job, job: Job, t: EgressTarget, u: EgressTarget) {
    && was.eg.targets == [t] && job.eg.targets == [t, u] && Good(t) && Good(u) && Addr(t) != Addr(u)
    && was.cfg == job.cfg && was.app == job.app && job.image != ""
    && Sound(w, job.cfg, job.app) && Recorded(w, job.app) && Converged(w, was)
    && WantName(job, u) == WantName(was, t) && Named(w, WantName(job, t)) == {}
  }

  /** Its one gateway, line and name. */
  lemma RelabelledHolder(w: World, was: Job, job: Job, t: EgressTarget, u: EgressTarget)
    requires Relabelled(w, was, job, t, u)
    ensures var m := Lines(w, job.app);
            && m.Keys == {Addr(t)} && Describes(w.services, job.app, Addr(t), m[Addr(t)])
            && (forall s :: Runs(w.services, job.app, s) ==> s == m[Addr(t)].serviceId)
            && w.services[m[Addr(t)].serviceId].spec.name == WantName(job, u)
            && m[Addr(t)].hash != WantHash(job, t)
            && Covers(w.services, job.app, m, {}) && Wanted(job).Keys == {Addr(t), Addr(u)} && AllGood(job.eg.targets)
            && Wanted(job)[Addr(t)] == t && Wanted(job)[Addr(u)] == u && WantName(job, t) != WantName(job, u)
  {
    hide Converged;
    hide Wanted;
    hide WantName;
    hide WantHash;
    hide WantSpec;
    hide WholeHash;
    hide LiveHash;
    hide TargetAddr;
    hide MarkedFor;
    hide Lines;
    hide Recorded;
    hide Addr;
    hide Good;
    hide Built;
    OneTarget(was, t);
    TwoTargets(job, t, u);
    ConvergedOrder(w, was);
    var m := Lines(w, job.app);
    var s := m[Addr(t)].serviceId;
    assert Describes(w.services, job.app, Addr(t), m[Addr(t)]);
    NamedAsWanted(w, was, s);
    assert s in Named(w, WantName(job, u));
    if m[Addr(t)].hash == WantHash(job, t) {
      HashPinsSpec(job, t, w.services[s].spec);
      var secret :| w.services[s].spec == WantSpec(job, t, secret);
      WantSpecName(job, t, secret);
      assert false;
    }
  }

  /** The diff finds nothing to remove. */
  lemma RelabelledPruned(w: World, was: Job, job: Job, t: EgressTarget, u: EgressTarget, ans: Answers)
    requires Relabelled(w, was, job, t, u)
    ensures Pruned(w, job, ans) == Pass(w, Lines(w, job.app), true) && !GateOpen(w, job)
    ensures Untaken(w.services, job.app, Lines(w, job.app))
    ensures Reconciling(Pruned(w, job, ans), job.cfg, job.app, {})
  {
    hide Relabelled;
    hide Wanted;
    hide WantName;
    hide WantHash;
    hide WholeHash;
    hide LiveAddrs;
    hide Describes;
    hide Runs;
    hide Lines;
    hide Sound;
    hide Recorded;
    hide Addr;
    hide Good;
    hide AllGood;
    hide Tracked;
    hide RemoveLoop;
    hide Covers;
    hide Reconciling;
    hide RemovedIds;
    hide Named;
    RelabelledHolder(w, was, job, t, u);
    RelabelledSound(w, was, job, t, u);
    TrackedIsRecord(w, job.app, ans.pick);
    CoversAddresses(w, job.app);
    RemoveLoopIdle(Pass(w, Lines(w, job.app), true), Wanted(job).Keys, Lines(w, job.app).Keys, ans);
    PrunedKeeps(w, job, ans);
    assert Addr(u) in Wanted(job).Keys && Addr(u) !in Lines(w, job.app).Keys by { RelabelledApart(w, was, job, t, u); }
  }

  lemma RelabelledSound(w: World, was: Job, job: Job, t: EgressTarget, u: EgressTarget)
    requires Relabelled(w, was, job, t, u)
    ensures Sound(w, job.cfg, job.app) && Recorded(w, job.app) && job.image != "" && Good(t) && Good(u)
    ensures Named(w, WantName(job, t)) == {}
  {
    hide Sound;
    hide Recorded;
    hide Converged;
    hide WantName;
    hide Good;
    hide Addr;
    hide Named;
  }

  lemma RelabelledApart(w: World, was: Job, job: Job, t: EgressTarget, u: EgressTarget)
    requires Relabelled(w, was, job, t, u)
    ensures Addr(t) != Addr(u)
  {
    hide Sound;
    hide Recorded;
    hide Converged;
    hide WantName;
    hide Good;
    hide Addr;
    hide Named;
  }

  /** `u` first: it adopts the gateway of `t`, whose update then renames it. No error. */
  lemma LateFirst(w: World, was: Job, job: Job, t: EgressTarget, u: EgressTarget, ans: Answers)
    requires Relabelled(w, was, job, t, u) && FaultFree(w, job, ans) && ans.pick(Wanted(job).Keys) == Addr(u)
    ensures Diffed(w, job, ans).ok
  {
    hide Relabelled;
    hide Wanted;
    hide WantName;
    hide WantHash;
    hide Lines;
    hide Sound;
    hide Recorded;
    hide Addr;
    hide Good;
    hide AllGood;
    hide Pruned;
    hide GateOpen;
    hide Untaken;
    hide Reconciling;
    hide Covers;
    hide LiveHash;
    hide TargetAddr;
    hide MarkedFor;
    hide PutOne;
    hide CreateInto;
    hide Adopts;
    hide SmoothCreate;
    hide SmoothUpdate;
    hide Apart;
    hide KeyIds;
    hide NewIds;
    hide SmoothRemoves;
    RelabelledHolder(w, was, job, t, u);
    RelabelledSound(w, was, job, t, u);
    RelabelledPruned(w, was, job, t, u, ans);
    RelabelledApart(w, was, job, t, u);
    var p := Pruned(w, job, ans);
    var s := p.tracked[Addr(t)].serviceId;
    SmoothAdopts(w, ans.put(Addr(u)).create);
    PutCreates(p, job, u, ans.put(Addr(u)), ans.pick);
    CreateTakesOver(p, job, u, ans.put(Addr(u)).create, ans.pick, s);
    var p1 := PutOne(p, job, u, ans.put(Addr(u)), ans.pick);
    PutOneUses(p, job, u, ans.put(Addr(u)), ans.pick);
    SmoothLater(w, p1.w, Wanted(job).Keys, Addr(u), ans);
    assert Wanted(job).Keys - {Addr(u)} == {Addr(t)};
    NameStaysFree(w, p1.w, job, t, u, s);
    PutUpdates(p1, job, t, ans.put(Addr(t)), ans.pick);
    PutLoopOne(p1, job, Wanted(job), Addr(t), ans);
  }

  lemma NameStaysFree(w: World, w': World, job: Job, t: EgressTarget, u: EgressTarget, s: string)
    requires Good(u) && Placed(w, w', job, u, s) && Named(w, WantName(job, t)) == {}
    ensures Named(w', WantName(job, t)) <= {s}
  {
    hide WantName;
    hide WantHash;
    hide LiveHash;
    hide TargetAddr;
    hide MarkedFor;
    hide Good;
    hide Placed;
    hide Built;
    PlacedFrame(w, w', job, u, s);
    forall x | x in Named(w', WantName(job, t)) && x != s ensures x in Named(w, WantName(job, t)) {}
  }

  /** An outdated gateway that runs and may have its name is updated without an error. */
  lemma PutUpdates(p: Pass, job: Job, t: EgressTarget, a: PutAnswers, pick: Picker)
    requires Attempted(p, job, t) && SmoothUpdate(p.w, a.update) && p.tracked[Addr(t)].serviceId in p.w.services
    requires Named(p.w, WantName(job, t)) <= {p.tracked[Addr(t)].serviceId}
    ensures var p' := PutOne(p, job, t, a, pick);
            && p'.ok == p.ok && p'.tracked.Keys == p.tracked.Keys && Strands(p, job, t, a) == {}
            && p'.tracked[Addr(t)].serviceId == p.tracked[Addr(t)].serviceId
  {
    hide UpdateGateway;
    hide CreateInto;
    hide SmoothUpdate;
    hide WantName;
    hide WantHash;
    hide Addr;
    hide Named;
    UpdatedIff(p.w, job, t, p.tracked[Addr(t)], a.update);
    UpdateGrows(p.w, job, t, p.tracked[Addr(t)], a.update);
  }

  /** `t` first: the update gives the name free and `u` gets a gateway of its own. */
  lemma EarlyFirst(w: World, was: Job, job: Job, t: EgressTarget, u: EgressTarget, ans: Answers)
    requires Relabelled(w, was, job, t, u) && FaultFree(w, job, ans) && ans.pick(Wanted(job).Keys) == Addr(t)
    ensures var p := Diffed(w, job, ans);
            && p.ok && p.tracked.Keys == Wanted(job).Keys
            && forall a :: a in p.tracked ==> Describes(p.w.services, job.app, a, p.tracked[a])
  {
    hide Relabelled;
    hide Wanted;
    hide WantName;
    hide WantHash;
    hide Lines;
    hide Sound;
    hide Recorded;
    hide Addr;
    hide Good;
    hide AllGood;
    hide Pruned;
    hide GateOpen;
    hide Untaken;
    hide Reconciling;
    hide Covers;
    hide Describes;
    hide Runs;
    hide AddrOf;
    hide PutOne;
    hide Adopts;
    hide SmoothCreate;
    hide SmoothUpdate;
    hide Apart;
    hide KeyIds;
    hide NewIds;
    hide SmoothRemoves;
    hide ClearAll;
    hide NamesApart;
    hide Usable;
    RelabelledHolder(w, was, job, t, u);
    RelabelledSound(w, was, job, t, u);
    RelabelledPruned(w, was, job, t, u, ans);
    RelabelledApart(w, was, job, t, u);
    var p := Pruned(w, job, ans);
    var p1 := PutOne(p, job, t, ans.put(Addr(t)), ans.pick);
    EarlyStep(w, was, job, t, u, ans);
    PutOneUses(p, job, t, ans.put(Addr(t)), ans.pick);
    SmoothLater(w, p1.w, Wanted(job).Keys, Addr(t), ans);
    assert Wanted(job).Keys - {Addr(t)} == {Addr(u)};
    PutLoopCalm(p1, job, {Addr(u)}, ans, {});
    PutLoopLeaves(p1, job, {Addr(u)}, ans, Addr(t));
    var p2 := PutLoop(p1, job, Wanted(job), {Addr(u)}, ans);
    CalmBoth(p1, p2, job, Addr(t), Addr(u));
    forall a | a != Addr(t) && a != Addr(u) ensures a !in p2.tracked { PutLoopLeaves(p1, job, {Addr(u)}, ans, a); }
  }

  lemma CalmBoth(p: Pass, p': Pass, job: Job, a: string, b: string)
    requires Calm(p, p', job, {b}) && a != b && b in Wanted(job) && a in p.tracked && a in p'.tracked && p'.tracked[a] == p.tracked[a]
    requires Describes(p.w.services, job.app, a, p.tracked[a]) && b !in p.tracked && b in p'.tracked
    ensures Describes(p'.w.services, job.app, a, p'.tracked[a]) && Describes(p'.w.services, job.app, b, p'.tracked[b])
  {
    hide Describes;
    hide Runs;
    hide AddrOf;
    hide Wanted;
    hide WantHash;
    hide Untaken;
  }

  lemma EarlyStep(w: World, was: Job, job: Job, t: EgressTarget, u: EgressTarget, ans: Answers)
    requires Relabelled(w, was, job, t, u) && FaultFree(w, job, ans) && ans.pick(Wanted(job).Keys) == Addr(t)
    ensures var p1 := PutOne(Pruned(w, job, ans), job, t, ans.put(Addr(t)), ans.pick);
            && p1.ok && p1.tracked.Keys == {Addr(t)} && Reconciling(p1, job.cfg, job.app, {})
            && Describes(p1.w.services, job.app, Addr(t), p1.tracked[Addr(t)])
            && NamesApart(job) && ClearAll(p1.w.services, job) && Usable(p1.w.services, job, p1.tracked)
  {
    hide Relabelled;
    hide Wanted;
    hide WantName;
    hide WantHash;
    hide Lines;
    hide Sound;
    hide Recorded;
    hide Addr;
    hide Good;
    hide AllGood;
    hide Pruned;
    hide GateOpen;
    hide Untaken;
    hide Reconciling;
    hide Covers;
    hide Describes;
    hide Runs;
    hide AddrOf;
    hide PutOne;
    hide SmoothCreate;
    hide SmoothUpdate;
    hide Apart;
    hide SmoothRemoves;
    hide Usable;
    hide Unshared;
    hide UnsharedAt;
    hide NamesApart;
    hide ClearAll;
    hide Named;
    hide UniqueNames;
    hide PutResult;
    hide Strands;
    RelabelledHolder(w, was, job, t, u);
    RelabelledSound(w, was, job, t, u);
    RelabelledPruned(w, was, job, t, u, ans);
    RelabelledApart(w, was, job, t, u);
    var p := Pruned(w, job, ans);
    var p1 := PutOne(p, job, t, ans.put(Addr(t)), ans.pick);
    var s := p.tracked[Addr(t)].serviceId;
    assert s in w.services by { DescribedRuns(w.services, job.app, Addr(t), p.tracked[Addr(t)]); }
    SoundUnique(w, job.cfg, job.app);
    PutUpdates(p, job, t, ans.put(Addr(t)), ans.pick);
    UntakenIsUsable(w.services, job, p.tracked);
    UsableOne(p, job, Addr(t));
    PutOneKeeps(p, job, t, ans.put(Addr(t)), ans.pick, {});
    assert {} + Strands(p, job, t, ans.put(Addr(t))) == {};
    PlacedEarly(p, p1, job, t, u, s);
  }

  lemma DescribedRuns(v: Services, app: string, a: string, ref: GatewayRef)
    requires Describes(v, app, a, ref)
    ensures ref.serviceId in v
  {
  }

  lemma PlacedEarly(p: Pass, p1: Pass, job: Job, t: EgressTarget, u: EgressTarget, s: string)
    requires PutResult(p, p1, job, t) && Attempted(p, job, t) && Reconciling(p1, job.cfg, job.app, {}) && UniqueNames(p.w.services)
    requires p1.tracked.Keys == {Addr(t)} && p.tracked.Keys == {Addr(t)} && p1.tracked[Addr(t)].serviceId == s && Good(t) && Good(u)
    requires Wanted(job).Keys == {Addr(t), Addr(u)} && Wanted(job)[Addr(t)] == t && Wanted(job)[Addr(u)] == u
    requires s in p.w.services && p.w.services[s].spec.name == WantName(job, u) && WantName(job, t) != WantName(job, u)
    ensures Describes(p1.w.services, job.app, Addr(t), p1.tracked[Addr(t)])
    ensures NamesApart(job) && ClearAll(p1.w.services, job) && Usable(p1.w.services, job, p1.tracked)
  {
    hide Wanted;
    hide WantName;
    hide WantHash;
    hide LiveHash;
    hide TargetAddr;
    hide MarkedFor;
    hide Addr;
    hide Good;
    hide Placed;
    hide Built;
    hide Reconciling;
    assert Placed(p.w, p1.w, job, t, s) && p1.tracked[Addr(t)].target == Addr(t);
    PlacedFrame(p.w, p1.w, job, t, s);
    forall x | x in p1.w.services ensures p1.w.services[x].spec.name != WantName(job, u) {}
    assert NameClear(p1.w.services, job, u);
    PlacedOwnNameClear(p.w, p1.w, job, t, s);
  }

  /** What the relabelled app's pass amounts to. */
  lemma RelabelledPass(w: World, was: Job, job: Job, t: EgressTarget, u: EgressTarget, ans: Answers)
    requires Relabelled(w, was, job, t, u) && FaultFree(w, job, ans)
    ensures var r := EgressPass(w, job, ans);
            && r.ok == Diffed(w, job, ans).ok && r.w.services == Diffed(w, job, ans).w.services
            && Lines(r.w, job.app) == Diffed(w, job, ans).tracked
            && Unshared(w.services, job, Lines(w, job.app))
            && forall a :: a in Wanted(job) && a in Lines(r.w, job.app) ==> Lines(r.w, job.app)[a].hash == WantHash(job, Wanted(job)[a])
  {
    hide Relabelled;
    hide Wanted;
    hide WantName;
    hide WantHash;
    hide WholeHash;
    hide Lines;
    hide Sound;
    hide Recorded;
    hide Addr;
    hide Good;
    hide AllGood;
    hide Pruned;
    hide Diffed;
    hide GateOpen;
    hide Untaken;
    hide Reconciling;
    hide Covers;
    hide FaultFree;
    hide Usable;
    hide Unshared;
    hide EgressPass;
    hide SlowPath;
    hide Tracked;
    hide FastGate;
    hide Converged;
    hide Passes;
    hide Stranded;
    hide Describes;
    hide Runs;
    RelabelledHolder(w, was, job, t, u);
    RelabelledSound(w, was, job, t, u);
    RelabelledPruned(w, was, job, t, u, ans);
    UntakenIsUsable(w.services, job, Lines(w, job.app));
    UsableIsUnshared(w.services, job, Lines(w, job.app));
    GateIsOpen(w, job, ans.pick);
    FaultFreeLists(w, job, ans);
    EgressOk(w, job, ans);
    SlowPathIs(w, job, ans);
    SlowPathKeeps(w, job, ans);
  }

  /** The relabelled app's desired names differ and nothing is stuck; one name is taken. */
  lemma RelabelledTaken(w: World, was: Job, job: Job, t: EgressTarget, u: EgressTarget)
    requires Relabelled(w, was, job, t, u)
    ensures Addr(t) in Lines(w, job.app) && Taken(w.services, job, Addr(u), Lines(w, job.app)[Addr(t)].serviceId)
    ensures NamesApart(job) && !Stuck(w, job)
  {
    hide Relabelled;
    hide Wanted;
    hide WantName;
    hide WantHash;
    hide Lines;
    hide Addr;
    hide AllGood;
    hide Covers;
    hide LiveHash;
    hide TargetAddr;
    hide MarkedFor;
    RelabelledHolder(w, was, job, t, u);
    RelabelledApart(w, was, job, t, u);
  }

  /** The relabelled app, every call succeeding: no error is reported and no later pass
      changes anything, and whether it has converged is up to the order the map of desired
      targets is ranged over. */
  lemma RelabelConvergesIff(w: World, was: Job, job: Job, t: EgressTarget, u: EgressTarget, ans: Answers, script: seq<Answers>)
    requires Relabelled(w, was, job, t, u) && FaultFree(w, job, ans)
    ensures var r := EgressPass(w, job, ans);
            && r.ok && Passes(r.w, job, script) == r.w && NamesApart(job) && !Stuck(w, job)
            && (Converged(r.w, job) <==> ans.pick(Wanted(job).Keys) == Addr(t))
  {
    hide Relabelled;
    hide Wanted;
    hide WantName;
    hide WantHash;
    hide WholeHash;
    hide Lines;
    hide Sound;
    hide Recorded;
    hide Addr;
    hide Good;
    hide AllGood;
    hide Pruned;
    hide Diffed;
    hide GateOpen;
    hide Untaken;
    hide Reconciling;
    hide Covers;
    hide FaultFree;
    hide Usable;
    hide Unshared;
    hide EgressPass;
    hide SlowPath;
    hide Tracked;
    hide FastGate;
    hide Converged;
    hide Passes;
    hide Stranded;
    hide Describes;
    hide Runs;
    hide AddrOf;
    hide Taken;
    hide NamesApart;
    hide Stuck;
    RelabelledHolder(w, was, job, t, u);
    RelabelledSound(w, was, job, t, u);
    RelabelledPruned(w, was, job, t, u, ans);
    RelabelledTaken(w, was, job, t, u);
    RelabelledPass(w, was, job, t, u, ans);
    RelabelledApart(w, was, job, t, u);
    if ans.pick(Wanted(job).Keys) == Addr(t) {
      EarlyFirst(w, was, job, t, u, ans);
      NoErrorIsFinal(w, job, ans, script);
    } else {
      LateFirst(w, was, job, t, u, ans);
      NoErrorIsFinal(w, job, ans, script);
      TakenNameTrips(w, job, ans, Addr(u), Lines(w, job.app)[Addr(t)].serviceId);
    }
  }

  lemma FaultFreeLists(w: World, job: Job, ans: Answers)
    requires FaultFree(w, job, ans)
    ensures ans.list
  {
    hide SmoothPuts;
    hide SmoothRemoves;
    hide Wanted;
  }
}
