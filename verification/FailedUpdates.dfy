/** What a failed in-place update and a half removal cost. The code drops a gateway whose
    update failed from its record "so the count check forces a retry", but the next pass
    re-adopts the gateway, which is still running, while the desired hash has already been
    recorded. A removal that fails between deleting the service and expiring its key keeps a
    line for a gateway that is gone, and such a line passes for up to date. */
module FailedUpdates {
  import opened Targets
  import opened Gateway
  import opened World
  import opened Egress
  import opened Mirror
  import opened Loops
  import opened Convergence
  import opened EgressTheorems

  // ---------- which gateways a failed update leaves behind ----------

  lemma StrandsRuns(p: Pass, job: Job, a: string, ans: Answers)
    requires a in Wanted(job) && Addr(Wanted(job)[a]) == a && Usable(p.w.services, job, p.tracked)
    requires Strands(p, job, Wanted(job)[a], ans.put(a)) != {}
    ensures a in p.tracked && Describes(p.w.services, job.app, a, p.tracked[a])
    ensures p.tracked[a].hash != WantHash(job, Wanted(job)[a])
    ensures a !in PutOne(p, job, Wanted(job)[a], ans.put(a), ans.pick).tracked
  {
    hide Describes;
    hide WantHash;
    hide Wanted;
    hide Addr;
    hide UpdateGateway;
    hide CreateInto;
  }

  /** A stranded gateway ran for its address, outdated, and is dropped from the working map. */
  lemma {:induction false} StrandedAre(p: Pass, job: Job, todo: set<string>, ans: Answers, gone: set<string>)
    requires AllGood(job.eg.targets) && NamesApart(job) && ClearAll(p.w.services, job) && todo <= Wanted(job).Keys
    requires Reconciling(p, job.cfg, job.app, gone) && todo !! gone && Usable(p.w.services, job, p.tracked)
    ensures forall a :: a in Stranded(p, job, todo, ans) ==>
              && a in todo && a in p.tracked && Describes(p.w.services, job.app, a, p.tracked[a])
              && p.tracked[a].hash != WantHash(job, Wanted(job)[a])
              && a !in PutLoop(p, job, Wanted(job), todo, ans).tracked
    decreases todo
  {
    hide Reconciling;
    hide ClearAll;
    hide NamesApart;
    hide PutOne;
    hide Wanted;
    hide Good;
    hide AllGood;
    hide Addr;
    hide Usable;
    hide WantHash;
    hide Describes;
    hide Untaken;
    hide AddrOf;
    hide Runs;
    hide Strands;
    hide UnsharedAt;
    hide PutResult;
    if todo != {} {
      var addr := ans.pick(todo);
      var t := Wanted(job)[addr];
      WantedGood(job);
      var p1 := PutOne(p, job, t, ans.put(addr), ans.pick);
      PutOneCalm(p, job, addr, ans, gone);
      UsableOne(p, job, addr);
      PutOneKeeps(p, job, t, ans.put(addr), ans.pick, gone);
      StrandsIn(p, job, t, ans.put(addr));
      var gone1 := gone + Strands(p, job, t, ans.put(addr));
      StrandedAre(p1, job, todo - {addr}, ans, gone1);
      OneMoves(p, p1, job, addr);
      OnlyAddrMoves(p.tracked, p1.tracked, addr);
      UsableIsUnshared(p1.w.services, job, p1.tracked);
      PutLoopKeeps(p1, job, todo - {addr}, ans, gone1);
      PutTwice(p.tracked, p1.tracked, PutLoop(p1, job, Wanted(job), todo - {addr}, ans).tracked, addr, todo);
      if Strands(p, job, t, ans.put(addr)) != {} {
        StrandsRuns(p, job, addr, ans);
      }
    }
  }

  lemma CalmKeeps(p: Pass, p': Pass, job: Job, a: string)
    requires Calm(p, p', job, Wanted(job).Keys) && a in p.tracked && a !in p'.tracked
    requires Describes(p.w.services, job.app, a, p.tracked[a])
    ensures var sid := p.tracked[a].serviceId;
            && sid in p'.w.services && p'.w.services[sid] == p.w.services[sid] && Runs(p'.w.services, job.app, sid)
            && AddrOf(p'.w.services, sid) == a && LiveHash(p.w.services[sid].spec) == p.tracked[a].hash
  {
    hide Wanted;
    hide WantHash;
    hide Untaken;
    hide TargetAddr;
    hide LiveHash;
    hide MarkedFor;
  }

  /** The same after a whole diff, where the names can be had. */
  lemma DiffStranded(w: World, job: Job, ans: Answers, a: string)
    requires Sound(w, job.cfg, job.app) && Recorded(w, job.app) && AllGood(job.eg.targets)
    requires Usable(w.services, job, Lines(w, job.app)) && NamesHad(w, job, ans)
    requires a in Stranded(Pruned(w, job, ans), job, Wanted(job).Keys, ans)
    ensures var p1, p := Pruned(w, job, ans), Diffed(w, job, ans);
            && a in p1.tracked && a !in p.tracked && a in Wanted(job)
            && (var sid := p1.tracked[a].serviceId;
                && sid in w.services && sid in p.w.services && p.w.services[sid] == w.services[sid]
                && LiveHash(w.services[sid].spec) != WantHash(job, Wanted(job)[a])
                && Runs(p.w.services, job.app, sid) && AddrOf(p.w.services, sid) == a)
  {
    hide Sound;
    hide Recorded;
    hide Pruned;
    hide Wanted;
    hide WantHash;
    hide Usable;
    hide Lines;
    hide Reconciling;
    hide NamesApart;
    hide ClearAll;
    hide Stranded;
    hide Describes;
    hide AddrOf;
    hide LiveHash;
    hide Runs;
    hide Calm;
    hide AllGood;
    hide PutLoop;
    hide RemovedIds;
    hide Tracked;
    hide SmoothUpdates;
    hide SmoothRemoves;
    PrunedKeeps(w, job, ans);
    PrunedUsable(w, job, ans);
    StrandedAre(Pruned(w, job, ans), job, Wanted(job).Keys, ans, {});
    DiffedCalm(w, job, ans);
    var p1 := Pruned(w, job, ans);
    CalmKeeps(p1, Diffed(w, job, ans), job, a);
    RunsIn(p1.w.services, job.app, p1.tracked[a].serviceId);
    DescribedOne(p1.w.services, job.app, a, p1.tracked[a]);
  }

  lemma DescribedOne(v: Services, app: string, a: string, ref: GatewayRef)
    requires Describes(v, app, a, ref)
    ensures ref.serviceId in v
  {
    hide TargetAddr;
    hide LiveHash;
    hide MarkedFor;
  }

  // ---------- exactly when a diff is taken again ----------

  /** Exactly when the next pass retries, whatever failed: the diff is taken again if and only
      if the addresses recorded or served are not the desired ones. Where the names could be
      had, those are the lines the pass kept and the gateways whose update failed; so a
      failed update never causes a retry. */
  lemma RetriedIff(w: World, job: Job, ans: Answers, pick: Picker)
    requires Sound(w, job.cfg, job.app) && Recorded(w, job.app) && AllGood(job.eg.targets)
    requires Unshared(w.services, job, Lines(w, job.app))
    ensures var w1 := SlowPath(w, job, Tracked(w, job.app, ans.pick), ans).w;
            && (FastGate(job, EntryOf(w1, job.app), Tracked(w1, job.app, pick), Wanted(job)) <==>
                Addresses(w1, job.app) == Wanted(job).Keys)
            && (Usable(w.services, job, Lines(w, job.app)) && NamesHad(w, job, ans) ==>
                Addresses(w1, job.app) ==
                Diffed(w, job, ans).tracked.Keys + Stranded(Pruned(w, job, ans), job, Wanted(job).Keys, ans))
  {
    hide Pruned;
    hide Diffed;
    hide SlowPath;
    hide Tracked;
    hide FastGate;
    hide Sound;
    hide Recorded;
    hide Lines;
    hide Wanted;
    hide NamesHad;
    hide WholeHash;
    hide WantHash;
    hide Usable;
    hide Unshared;
    hide Stranded;
    hide LiveAddrs;
    var w1 := SlowPath(w, job, Tracked(w, job.app, ans.pick), ans).w;
    SlowPathKeeps(w, job, ans);
    GateIsOpen(w1, job, pick);
    if Usable(w.services, job, Lines(w, job.app)) && NamesHad(w, job, ans) {
      LiveAfterDiff(w, job, ans);
    }
  }

  lemma LiveAfterDiff(w: World, job: Job, ans: Answers)
    requires Sound(w, job.cfg, job.app) && Recorded(w, job.app) && AllGood(job.eg.targets)
    requires Usable(w.services, job, Lines(w, job.app)) && NamesHad(w, job, ans)
    ensures var p := Diffed(w, job, ans);
            var stranded := Stranded(Pruned(w, job, ans), job, Wanted(job).Keys, ans);
            stranded <= LiveAddrs(p.w.services, job.app) <= p.tracked.Keys + stranded
  {
    hide Pruned;
    hide Diffed;
    hide Tracked;
    hide Sound;
    hide Recorded;
    hide Lines;
    hide Wanted;
    hide NamesHad;
    hide WantHash;
    hide Usable;
    hide Unshared;
    hide Stranded;
    hide TargetAddr;
    hide LiveHash;
    hide MarkedFor;
    hide SlowPath;
    UsableIsUnshared(w.services, job, Lines(w, job.app));
    DiffedKeeps(w, job, ans);
    var p1, p := Pruned(w, job, ans), Diffed(w, job, ans);
    forall a | a in Stranded(p1, job, Wanted(job).Keys, ans) ensures a in LiveAddrs(p.w.services, job.app) {
      DiffStranded(w, job, ans, a);
    }
  }

  lemma {:induction false} OpenGateIsForever(w: World, job: Job, script: seq<Answers>)
    requires Sound(w, job.cfg, job.app) && Recorded(w, job.app) && GateOpen(w, job)
    ensures Passes(w, job, script) == w
    decreases script
  {
    hide EgressPass;
    hide Tracked;
    hide FastGate;
    hide Sound;
    hide Recorded;
    hide GateOpen;
    hide Wanted;
    if script != [] {
      GateIsOpen(w, job, script[0].pick);
      OpenPass(w, job, script[0]);
      OpenGateIsForever(w, job, script[1..]);
    }
  }

  /** The stuck gateway: if the update of address `a` failed and the pass otherwise did its
      work, its gateway keeps its outdated spec through every later pass with the same
      labels. */
  lemma FailedUpdateSticks(w: World, job: Job, ans: Answers, a: string, script: seq<Answers>)
    requires Sound(w, job.cfg, job.app) && Recorded(w, job.app) && AllGood(job.eg.targets)
    requires Usable(w.services, job, Lines(w, job.app)) && NamesHad(w, job, ans)
    requires var stranded := Stranded(Pruned(w, job, ans), job, Wanted(job).Keys, ans);
             a in stranded && Diffed(w, job, ans).tracked.Keys + stranded == Wanted(job).Keys
    requires a in Pruned(w, job, ans).tracked && a in Wanted(job)
    ensures var w1 := SlowPath(w, job, Tracked(w, job.app, ans.pick), ans).w;
            var sid := Pruned(w, job, ans).tracked[a].serviceId;
            && Passes(w1, job, script) == w1
            && sid in w.services && sid in w1.services && w1.services[sid] == w.services[sid]
            && LiveHash(w1.services[sid].spec) != WantHash(job, Wanted(job)[a])
            && !Converged(w1, job)
  {
    hide Pruned;
    hide Diffed;
    hide SlowPath;
    hide Tracked;
    hide Sound;
    hide Recorded;
    hide Lines;
    hide Wanted;
    hide NamesHad;
    hide WantHash;
    hide WholeHash;
    hide Usable;
    hide Unshared;
    hide Covers;
    hide Stranded;
    hide Passes;
    hide LiveHash;
    hide AddrOf;
    hide Runs;
    hide FastGate;
    hide Addresses;
    hide Converged;
    UsableIsUnshared(w.services, job, Lines(w, job.app));
    var w1 := SlowPath(w, job, Tracked(w, job.app, ans.pick), ans).w;
    SlowPathKeeps(w, job, ans);
    RetriedIff(w, job, ans, ans.pick);
    OpenGateIsForever(w1, job, script);
    DiffStranded(w, job, ans, a);
    UnlistedNotConverged(w1, job, a);
  }

  lemma UnlistedNotConverged(w: World, job: Job, a: string)
    requires a in Wanted(job) && a !in Lines(w, job.app)
    ensures !Converged(w, job)
  {
    hide Wanted;
    hide WantHash;
    hide Lines;
    hide Describes;
    hide Covers;
    hide Converged;
    if Converged(w, job) {
      ConvergedOrder(w, job);
    }
  }

  // ---------- an image upgrade that gets stuck ----------

  lemma {:induction false} FailingPuts(p: Pass, job: Job, todo: set<string>, ans: Answers)
    requires AllGood(job.eg.targets) && todo <= Wanted(job).Keys
    requires forall a :: a in todo ==> a in p.tracked && p.tracked[a].serviceId in p.w.services
    requires forall a :: !ans.put(a).update.update
    ensures var p' := PutLoop(p, job, Wanted(job), todo, ans);
            && p'.w.services == p.w.services && p'.w.ids == p.w.ids && p'.w.store == p.w.store
            && Submap(p'.tracked, p.tracked)
    decreases todo
  {
    hide WantHash;
    hide WantSpec;
    hide Addr;
    hide Good;
    if todo != {} {
      var addr := ans.pick(todo);
      WantedGood(job);
      var p1 := PutOne(p, job, Wanted(job)[addr], ans.put(addr), ans.pick);
      FailingPut(p, job, Wanted(job)[addr], ans.put(addr), ans.pick);
      FailingPuts(p1, job, todo - {addr}, ans);
    }
  }

  lemma FailingPut(p: Pass, job: Job, t: EgressTarget, a: PutAnswers, pick: Picker)
    requires Addr(t) in p.tracked && p.tracked[Addr(t)].serviceId in p.w.services && !a.update.update
    ensures var p' := PutOne(p, job, t, a, pick);
            && p'.w.services == p.w.services && p'.w.ids == p.w.ids && p'.w.store == p.w.store
            && (p'.tracked == p.tracked || p'.tracked == p.tracked - {Addr(t)})
  {
    hide WantHash;
    hide WantSpec;
    hide Addr;
    hide CreateInto;
  }

  /** From any converged state, if every in-place update of an image upgrade fails, the
      daemon records the new image as done, never tries again, and the old image runs on. */
  lemma UpgradeCanStick(w: World, job: Job, image: string, ans: Answers, script: seq<Answers>)
    requires Sound(w, job.cfg, job.app) && Recorded(w, job.app) && GoodJob(job) && Converged(w, job)
    requires image != job.image && image != "" && ans.list
    requires forall a :: !ans.put(a).update.update
    ensures var next := job.(image := image);
            var w1 := EgressPass(w, next, ans).w;
            && w1.services == w.services
            && Passes(w1, next, script) == w1
            && (Wanted(job) != map[] ==> !Converged(w1, next))
  {
    hide Tracked;
    hide RemoveLoop;
    hide PutLoop;
    hide FastGate;
    hide SortedGateways;
    hide Converged;
    hide Lines;
    hide LiveAddrs;
    hide Sound;
    hide Passes;
    hide SlowPath;
    hide EgressPass;
    hide AllGood;
    hide Covers;
    hide Describes;
    hide Tracks;
    hide StrictlySorted;
    var next := job.(image := image);
    assert Wanted(next) == Wanted(job);
    ConvergedOrder(w, job);
    CoversAddresses(w, job.app);
    TrackedIsRecord(w, job.app, ans.pick);
    var tracked := Tracked(w, job.app, ans.pick);
    UpgradeClosesGate(w, job, next, ans.pick);
    EgressPassCases(w, next, ans);
    var p := Pass(w, tracked, true);
    RemoveLoopIdle(p, Wanted(next).Keys, tracked.Keys, ans);
    assert Pruned(w, next, ans) == p;
    DescribedRun(w.services, job.app, tracked);
    hide WantHash;
    FailingPuts(p, next, Wanted(next).Keys, ans);
    var p' := Diffed(w, next, ans);
    assert AllTracked(p'.w, job.app, p'.tracked) by { SameTracks(w, p'.w, job.app, tracked); }
    WrittenRecord(w, next, ans);
    var w1 := EgressPass(w, next, ans).w;
    SameSound(w, w1, job.cfg, job.app);
    SameTracks(p'.w, w1, job.app, p'.tracked);
    SubmapLinked(w.services, job.app, tracked, p'.tracked);
    ServedAddresses(w, job);
    assert Addresses(w1, job.app) == Wanted(next).Keys;
    OpenGateIsForever(w1, next, script);
    if Wanted(job) != map[] {
      OldImageRuns(w, w1, job, next);
    }
  }

  lemma UpgradeClosesGate(w: World, job: Job, next: Job, pick: Picker)
    requires EntryOf(w, job.app).gatewayHash == WholeHash(job.eg, job.image)
    requires next == job.(image := next.image) && next.image != job.image
    ensures !FastGate(next, EntryOf(w, job.app), Tracked(w, job.app, pick), Wanted(next))
  {
    hide Tracked;
    hide Wanted;
  }

  /** Lines that all describe running gateways are linked in every part. */
  lemma SubmapLinked(v: Services, app: string, m: map<string, GatewayRef>, m': map<string, GatewayRef>)
    requires Submap(m', m) && forall a :: a in m ==> Describes(v, app, a, m[a])
    ensures Linked(v, app, m')
  {
    hide LiveHash;
    hide TargetAddr;
    hide MarkedFor;
  }

  lemma ServedAddresses(w: World, job: Job)
    requires InOrder(w, job) && Covers(w.services, job.app, Lines(w, job.app), {})
    ensures LiveAddrs(w.services, job.app) == Wanted(job).Keys
  {
    hide LiveHash;
    hide TargetAddr;
    hide MarkedFor;
    hide Lines;
    hide Wanted;
    hide WantHash;
    forall a | a in Wanted(job) ensures a in LiveAddrs(w.services, job.app) {
      assert Describes(w.services, job.app, a, Lines(w, job.app)[a]);
    }
  }

  lemma DescribedRun(v: Services, app: string, tracked: map<string, GatewayRef>)
    requires forall a :: a in tracked ==> Describes(v, app, a, tracked[a])
    ensures forall a :: a in tracked ==> tracked[a].serviceId in v
  {
    hide TargetAddr;
    hide LiveHash;
    hide MarkedFor;
  }

  lemma OldImageRuns(w: World, w1: World, job: Job, next: Job)
    requires Converged(w, job) && Wanted(job) != map[] && w1.services == w.services
    requires next == job.(image := next.image) && next.image != job.image
    ensures !Converged(w1, next)
  {
    hide TargetAddr;
    hide LiveHash;
    hide WantHash;
    hide MarkedFor;
    hide WholeHash;
    hide OnePerAddr;
    hide StrictlySorted;
    hide Desired;
    var a :| a in Wanted(job);
    var r :| r in EntryOf(w, job.app).gateways && r.target == a;
    var s := r.serviceId;
    assert Runs(w.services, job.app, s) && AddrOf(w.services, s) == a;
    var k :| w.services[s].spec == WantSpec(job, Wanted(job)[a], k);
    assert Wanted(next) == Wanted(job);
    assert w.services[s].spec.container.value.image == job.image;
    assert forall k' :: WantSpec(next, Wanted(next)[a], k').container.value.image == next.image;
  }

  // ---------- half removals ----------

  /** The limiter fails between deleting the service and expiring its key. */
  predicate HalfRemoval(a: RemoveAnswers) { Deleted(a) && !a.waitExpire }

  /** Nothing runs at `a`, and nothing a put of other targets does changes that. */
  lemma PutElsewhere(p: Pass, p': Pass, job: Job, t: EgressTarget, a: string)
    requires Good(t) && PutResult(p, p', job, t) && NothingAt(p.w.services, job.app, a) && Addr(t) != a
    ensures NothingAt(p'.w.services, job.app, a)
    ensures a in p.tracked ==> a in p'.tracked && p'.tracked[a] == p.tracked[a]
  {
    hide TargetAddr;
    hide LiveHash;
    hide MarkedFor;
    hide WantHash;
    hide WantName;
    hide Placed;
    hide Built;
    hide Good;
    hide Addr;
    OnlyAddrMoves(p.tracked, p'.tracked, Addr(t));
    if p'.w.services != p.w.services {
      PlacedFrame(p.w, p'.w, job, t, p'.tracked[Addr(t)].serviceId);
    }
  }

  /** A line with nothing behind it outlives the put loop, if the loop is not to look at it
      or takes it for up to date. */
  lemma {:induction false} DeadLineStays(p: Pass, job: Job, todo: set<string>, ans: Answers, gone: set<string>, a: string)
    requires AllGood(job.eg.targets) && todo <= Wanted(job).Keys && Unshared(p.w.services, job, p.tracked)
    requires Reconciling(p, job.cfg, job.app, gone) && todo !! gone
    requires a in p.tracked && NothingAt(p.w.services, job.app, a)
    requires a in todo ==> p.tracked[a].hash == WantHash(job, Wanted(job)[a])
    ensures var p' := PutLoop(p, job, Wanted(job), todo, ans);
            a in p'.tracked && p'.tracked[a] == p.tracked[a] && NothingAt(p'.w.services, job.app, a)
    decreases todo
  {
    hide Reconciling;
    hide Unshared;
    hide PutOne;
    hide WantHash;
    hide Wanted;
    hide Good;
    hide AllGood;
    hide Addr;
    hide Strands;
    hide UnsharedAt;
    hide NothingAt;
    hide PutResult;
    if todo != {} {
      var addr := ans.pick(todo);
      var t := Wanted(job)[addr];
      WantedGood(job);
      var p1 := PutOne(p, job, t, ans.put(addr), ans.pick);
      UnsharedOne(p, job, addr);
      PutOneKeeps(p, job, t, ans.put(addr), ans.pick, gone);
      UnsharedStays(p, p1, job, addr);
      StrandsIn(p, job, t, ans.put(addr));
      if addr == a {
        PutOneIdle(p, job, t, ans.put(addr), ans.pick);
      } else {
        PutElsewhere(p, p1, job, t, a);
      }
      DeadLineStays(p1, job, todo - {addr}, ans, gone + Strands(p, job, t, ans.put(addr)), a);
    }
  }

  lemma SubmapVacant(v: Services, v': Services, app: string, a: string)
    requires NothingAt(v, app, a) && Submap(v', v)
    ensures NothingAt(v', app, a)
  {
    hide TargetAddr;
    hide MarkedFor;
    forall s | Runs(v', app, s) ensures Runs(v, app, s) {}
  }

  /** A pass for the labels the line passes for up to date under, whatever its answers. */
  lemma DeadLinePass(w: World, job: Job, ans: Answers, a: string)
    requires Sound(w, job.cfg, job.app) && Recorded(w, job.app) && AllGood(job.eg.targets)
    requires Unshared(w.services, job, Lines(w, job.app)) && a in Lines(w, job.app) && a in Wanted(job)
    requires Lines(w, job.app)[a].hash == WantHash(job, Wanted(job)[a]) && NothingAt(w.services, job.app, a)
    ensures var w' := EgressPass(w, job, ans).w;
            && Sound(w', job.cfg, job.app) && Recorded(w', job.app) && Unshared(w'.services, job, Lines(w', job.app))
            && a in Lines(w', job.app) && Lines(w', job.app)[a] == Lines(w, job.app)[a] && NothingAt(w'.services, job.app, a)
  {
    hide EgressPass;
    hide SlowPath;
    hide Tracked;
    hide FastGate;
    hide Sound;
    hide Recorded;
    hide Wanted;
    hide WantHash;
    hide WholeHash;
    hide Covers;
    hide Stranded;
    hide Pruned;
    hide PutLoop;
    hide Lines;
    hide Describes;
    hide NothingAt;
    hide Reconciling;
    hide AllGood;
    hide RemovedIds;
    EgressPassCases(w, job, ans);
    if EgressPass(w, job, ans).w != w {
      var w' := SlowPath(w, job, Tracked(w, job.app, ans.pick), ans).w;
      SlowPathKeeps(w, job, ans);
      PrunedKeeps(w, job, ans);
      PrunedUsable(w, job, ans);
      TrackedMirrors(w, job.cfg, job.app, ans.pick);
      SubmapVacant(w.services, Pruned(w, job, ans).w.services, job.app, a);
      DeadLineStays(Pruned(w, job, ans), job, Wanted(job).Keys, ans, {}, a);
      assert Unshared(w'.services, job, Lines(w', job.app));
    }
  }

  /** A stuck line with nothing behind it stays so for ever, under any answers. */
  lemma {:induction false} DeadLineIsForever(w: World, job: Job, a: string, script: seq<Answers>)
    requires Sound(w, job.cfg, job.app) && Recorded(w, job.app) && AllGood(job.eg.targets)
    requires Unshared(w.services, job, Lines(w, job.app)) && a in Lines(w, job.app) && a in Wanted(job)
    requires Lines(w, job.app)[a].hash == WantHash(job, Wanted(job)[a]) && NothingAt(w.services, job.app, a)
    ensures var w' := Passes(w, job, script);
            NothingAt(w'.services, job.app, a) && !Converged(w', job)
    decreases script
  {
    hide EgressPass;
    hide Sound;
    hide Recorded;
    hide Wanted;
    hide WantHash;
    hide Lines;
    hide NothingAt;
    hide AllGood;
    hide Unshared;
    hide Converged;
    if script == [] {
      VacantNotConverged(w, job, a);
    } else {
      DeadLinePass(w, job, script[0], a);
      DeadLineIsForever(EgressPass(w, job, script[0]).w, job, a, script[1..]);
    }
  }

  lemma VacantNotConverged(w: World, job: Job, a: string)
    requires a in Wanted(job) && NothingAt(w.services, job.app, a)
    ensures !Converged(w, job)
  {
    hide Wanted;
    hide WantHash;
    hide Lines;
    hide LiveHash;
    hide TargetAddr;
    hide MarkedFor;
    hide Converged;
    if Converged(w, job) {
      ConvergedOrder(w, job);
    }
  }

  /** A failed removal keeps its line. */
  lemma {:induction false} FailedRemovalKeepsLine(p: Pass, keep: set<string>, todo: set<string>, ans: Answers, a: string)
    requires todo <= p.tracked.Keys && a in p.tracked
    requires p.tracked[a].keyId != "" && !ans.remove(a).waitExpire
    ensures var p' := RemoveLoop(p, keep, todo, ans);
            a in p'.tracked && p'.tracked[a] == p.tracked[a]
    decreases todo
  {
    hide RemoveService;
    if todo != {} {
      var addr := ans.pick(todo);
      var p1 := if addr in keep then p else RemoveOne(p, addr, ans.remove(addr));
      FailedRemovalKeepsLine(p1, keep, todo - {addr}, ans, a);
    }
  }

  lemma DeletedIsGone(w: World, w': World, app: string, a: string, ref: GatewayRef)
    requires OnePerAddr(w.services, app) && Describes(w.services, app, a, ref)
    requires Submap(w'.services, w.services) && ref.serviceId !in w'.services
    ensures NothingAt(w'.services, app, a)
  {
    hide LiveHash;
    hide TargetAddr;
    hide MarkedFor;
    forall s | Runs(w'.services, app, s) ensures Runs(w.services, app, s) {}
  }

  lemma SoundOne(w: World, cfg: Config, app: string)
    requires Sound(w, cfg, app)
    ensures OnePerAddr(w.services, app)
  {
    hide UniqueNames;
    hide OnePerAddr;
    hide AllBuilt;
  }

  /** The pass that drops address `a` and half removes its gateway. */
  lemma HalfRemoved(w: World, job: Job, ans: Answers, a: string)
    requires Sound(w, job.cfg, job.app) && Recorded(w, job.app) && AllGood(job.eg.targets)
    requires Unshared(w.services, job, Lines(w, job.app))
    requires a in Lines(w, job.app) && a !in Wanted(job) && Describes(w.services, job.app, a, Lines(w, job.app)[a])
    requires Lines(w, job.app)[a].keyId != "" && HalfRemoval(ans.remove(a))
    ensures var w' := SlowPath(w, job, Tracked(w, job.app, ans.pick), ans).w;
            a in Lines(w', job.app) && Lines(w', job.app)[a] == Lines(w, job.app)[a] && NothingAt(w'.services, job.app, a)
  {
    hide SlowPath;
    hide Tracked;
    hide Sound;
    hide Recorded;
    hide Wanted;
    hide WantHash;
    hide WholeHash;
    hide Covers;
    hide Stranded;
    hide RemoveLoop;
    hide PutLoop;
    hide Lines;
    hide Describes;
    hide NothingAt;
    hide Reconciling;
    hide AllGood;
    hide Unshared;
    hide AllTracked;
    SlowPathKeeps(w, job, ans);
    PrunedKeeps(w, job, ans);
    PrunedUsable(w, job, ans);
    TrackedMirrors(w, job.cfg, job.app, ans.pick);
    SoundOne(w, job.cfg, job.app);
    var tracked, p1 := Tracked(w, job.app, ans.pick), Pruned(w, job, ans);
    FailedRemovalKeepsLine(Pass(w, tracked, true), Wanted(job).Keys, tracked.Keys, ans, a);
    assert tracked[a].serviceId in RemovedIds(tracked, tracked.Keys - Wanted(job).Keys, ans.remove);
    DeletedIsGone(w, p1.w, job.app, a, tracked[a]);
    DeadLineStays(p1, job, Wanted(job).Keys, ans, {}, a);
  }

  /** A half removal undone: a converged app drops an address from its labels, the removal of
      that gateway fails after the service is deleted, and the labels are put back. Whatever
      happens in the passes that follow, the address never gets a gateway again. */
  lemma HalfRemovalSticks(w: World, job: Job, less: Job, half: Answers, a: string, script: seq<Answers>)
    requires Sound(w, job.cfg, job.app) && Recorded(w, job.app) && GoodJob(job) && Converged(w, job)
    requires less.cfg == job.cfg && less.app == job.app && GoodJob(less) && NamesHad(w, less, half) && half.list
    requires a in Wanted(job) && a !in Wanted(less) && HalfRemoval(half.remove(a))
    requires a in Lines(w, job.app) && Lines(w, job.app)[a].keyId != ""
    ensures var w1 := EgressPass(w, less, half).w;
            var back := Passes(w1, job, script);
            && StuckAt(w1, job, a)
            && NothingAt(w1.services, job.app, a) && NothingAt(back.services, job.app, a) && !Converged(back, job)
  {
    hide EgressPass;
    hide SlowPath;
    hide Tracked;
    hide FastGate;
    hide Sound;
    hide Recorded;
    hide Wanted;
    hide WantHash;
    hide WholeHash;
    hide Covers;
    hide Lines;
    hide NothingAt;
    hide AllGood;
    hide Unshared;
    hide Usable;
    hide Converged;
    hide NamesHad;
    hide Passes;
    hide Describes;
    hide LiveAddrs;
    hide Stranded;
    hide Pruned;
    hide Diffed;
    hide Calm;
    hide ClearAll;
    ConvergedOrder(w, job);
    CoversAddresses(w, job.app);
    assert Untaken(w.services, less.app, Lines(w, job.app));
    UntakenIsUsable(w.services, less, Lines(w, job.app));
    UsableIsUnshared(w.services, less, Lines(w, job.app));
    hide Untaken;
    GateIsOpen(w, less, half.pick);
    EgressPassCases(w, less, half);
    var w1 := EgressPass(w, less, half).w;
    HalfRemoved(w, less, half, a);
    hide HalfRemoval;
    UntakenAfter(w, less, half);
    UntakenIsUsable(w1.services, job, Lines(w1, job.app));
    UsableIsUnshared(w1.services, job, Lines(w1, job.app));
    DeadLineIsForever(w1, job, a, script);
    VacantLine(w1, job, a);
  }

  lemma VacantLine(w: World, job: Job, a: string)
    requires a in Lines(w, job.app) && a in Wanted(job) && NothingAt(w.services, job.app, a)
    requires Lines(w, job.app)[a].hash == WantHash(job, Wanted(job)[a])
    ensures StuckAt(w, job, a)
  {
    hide Lines;
    hide Wanted;
    hide WantHash;
    hide LiveHash;
    hide TargetAddr;
    hide MarkedFor;
  }
}
