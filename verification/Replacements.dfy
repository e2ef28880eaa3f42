/** One address of an app is replaced by another that wants its gateway's name, as when a
    port changes: a name leaves out the port. What becomes of it if the first pass has
    faults is decided by two answers. */
module Replacements {
  import opened Targets
  import opened Gateway
  import opened World
  import opened Egress
  import opened Mirror
  import opened Loops
  import opened Convergence
  import opened EgressTheorems
  import opened FailedUpdates
  import opened NameClashes
  import Keys

  /** The app's record is in order but for `x`, no longer wanted, whose gateway bears the
      name of `y`, wanted and not there yet. */
  ghost predicate Replaced(w: World, job: Job, x: string, y: string) {
    var m := Lines(w, job.app);
    && Sound(w, job.cfg, job.app) && Recorded(w, job.app) && GoodJob(job) && Covers(w.services, job.app, m, {})
    && x !in Wanted(job) && y in Wanted(job) && m.Keys == Wanted(job).Keys - {y} + {x}
    && (forall a :: a in m ==> Describes(w.services, job.app, a, m[a]))
    && (forall a :: a in m && a in Wanted(job) ==> m[a].hash == WantHash(job, Wanted(job)[a]))
    && w.services[m[x].serviceId].spec.name == WantName(job, Wanted(job)[y])
  }

  /** So it is when a converged app exchanges one target for another. */
  lemma ReplacedFrom(w: World, was: Job, job: Job, x: string, y: string)
    requires Sound(w, job.cfg, job.app) && Recorded(w, job.app) && Converged(w, was) && GoodJob(was) && GoodJob(job)
    requires job == was.(eg := was.eg.(targets := job.eg.targets))
    requires x in Wanted(was) && x !in Wanted(job) && Wanted(job).Keys == Wanted(was).Keys - {x} + {y} && y !in Wanted(was)
    requires WantName(job, Wanted(job)[y]) == WantName(was, Wanted(was)[x])
    ensures Replaced(w, job, x, y)
  {
    hide Wanted;
    hide Sound;
    hide Recorded;
    hide Converged;
    hide Lines;
    hide Covers;
    hide WantName;
    hide WantHash;
    hide WholeHash;
    hide LiveHash;
    hide TargetAddr;
    hide MarkedFor;
    hide Good;
    hide Addr;
    hide AllGood;
    ConvergedOrder(w, was);
    WantedGood(was);
    WantedGood(job);
    var m := Lines(w, job.app);
    forall a | a in m && a in Wanted(job) ensures m[a].hash == WantHash(job, Wanted(job)[a]) {
      AddrInjective(Wanted(was)[a], Wanted(job)[a]);
      SameWantHash(was, job, Wanted(job)[a]);
    }
    assert Describes(w.services, job.app, x, m[x]);
    NamedAsWanted(w, was, m[x].serviceId);
  }

  lemma SameWantHash(was: Job, job: Job, t: EgressTarget)
    requires job == was.(eg := was.eg.(targets := job.eg.targets))
    ensures WantHash(was, t) == WantHash(job, t)
  {
    hide Addr;
    hide Hostname;
  }

  // ---------- the loops, where one address moves ----------

  lemma {:induction false} RemoveLoopOnly(p: Pass, keep: set<string>, todo: set<string>, ans: Answers, x: string)
    requires todo <= p.tracked.Keys && x in todo && x !in keep && todo - {x} <= keep
    ensures RemoveLoop(p, keep, todo, ans) == RemoveOne(p, x, ans.remove(x))
    decreases todo
  {
    hide RemoveOne;
    var a := ans.pick(todo);
    if a == x {
      Keys.RemoveOneTracked(p, x, ans.remove(x));
      RemoveLoopIdle(RemoveOne(p, x, ans.remove(x)), keep, todo - {x}, ans);
    } else {
      RemoveLoopOnly(p, keep, todo - {a}, ans, x);
    }
  }

  /** No desired line is outdated. */
  ghost predicate Current(job: Job, tracked: map<string, GatewayRef>) {
    forall a :: a in tracked && a in Wanted(job) ==> tracked[a].hash == WantHash(job, Wanted(job)[a])
  }

  lemma {:induction false} PutLoopOnly(p: Pass, job: Job, todo: set<string>, ans: Answers, y: string)
    requires AllGood(job.eg.targets) && todo <= Wanted(job).Keys && y in todo && todo - {y} <= p.tracked.Keys && Current(job, p.tracked)
    ensures PutLoop(p, job, Wanted(job), todo, ans) == PutOne(p, job, Wanted(job)[y], ans.put(y), ans.pick)
    decreases todo
  {
    hide PutOne;
    hide Wanted;
    hide WantHash;
    hide Addr;
    hide AllGood;
    WantedAddr(job);
    var a := ans.pick(todo);
    if a == y {
      Keys.PutOneOthers(p, job, Wanted(job)[y], ans.put(y), ans.pick);
      PutLoopIdle(PutOne(p, job, Wanted(job)[y], ans.put(y), ans.pick), job, todo - {y}, ans);
    } else {
      PutOneIdle(p, job, Wanted(job)[a], ans.put(a), ans.pick);
      PutLoopOnly(p, job, todo - {a}, ans, y);
    }
  }

  lemma {:induction false} CurrentStrandsNone(p: Pass, job: Job, todo: set<string>, ans: Answers)
    requires todo <= Wanted(job).Keys && Current(job, p.tracked)
    ensures Stranded(p, job, todo, ans) == {}
    decreases todo
  {
    hide Wanted;
    hide WantHash;
    hide Addr;
    hide UpdateGateway;
    hide PutOne;
    if todo != {} {
      var a := ans.pick(todo);
      WantedAddr(job);
      CurrentStays(p, job, a, ans);
      CurrentStrandsNone(PutOne(p, job, Wanted(job)[a], ans.put(a), ans.pick), job, todo - {a}, ans);
    }
  }

  lemma CurrentStays(p: Pass, job: Job, a: string, ans: Answers)
    requires a in Wanted(job) && Addr(Wanted(job)[a]) == a && Current(job, p.tracked)
    ensures Current(job, PutOne(p, job, Wanted(job)[a], ans.put(a), ans.pick).tracked)
  {
    hide Wanted;
    hide WantHash;
    hide Addr;
    hide CreateGateway;
    hide UpdateGateway;
    Keys.PutOneOthers(p, job, Wanted(job)[a], ans.put(a), ans.pick);
    CreateHash(p.w, job, Wanted(job)[a], ans.put(a).create, ans.pick);
  }

  lemma CreateHash(w: World, job: Job, t: EgressTarget, a: CreateAnswers, pick: Picker)
    ensures var r := CreateGateway(w, job, t, a, pick).1; r.Some? ==> r.value.hash == WantHash(job, t)
  {
    hide WantHash;
    hide WantSpec;
    hide Addr;
  }

  lemma CurrentIsUsable(v: Services, job: Job, tracked: map<string, GatewayRef>)
    requires Current(job, tracked)
    ensures Usable(v, job, tracked) && Unshared(v, job, tracked)
  {
    hide Wanted;
    hide WantHash;
    hide Describes;
  }

  // ---------- the first pass ----------

  lemma ReplacedFacts(w: World, job: Job, x: string, y: string)
    requires Replaced(w, job, x, y)
    ensures var m := Lines(w, job.app);
            && Sound(w, job.cfg, job.app) && Recorded(w, job.app) && GoodJob(job) && Covers(w.services, job.app, m, {})
            && x !in Wanted(job) && y in Wanted(job) && m.Keys == Wanted(job).Keys - {y} + {x}
            && Current(job, m) && Untaken(w.services, job.app, m) && x in m
            && m[x].serviceId in w.services && w.services[m[x].serviceId].spec.name == WantName(job, Wanted(job)[y])
  {
    hide Wanted;
    hide Sound;
    hide Recorded;
    hide Lines;
    hide Covers;
    hide WantName;
    hide WantHash;
    hide LiveHash;
    hide TargetAddr;
    hide MarkedFor;
    hide AllGood;
    assert Describes(w.services, job.app, x, Lines(w, job.app)[x]);
  }

  lemma ReplacedDiff(w: World, job: Job, x: string, y: string, ans: Answers)
    requires Replaced(w, job, x, y) && ans.list
    ensures x in Lines(w, job.app) && y in Wanted(job)
    ensures Pruned(w, job, ans) == RemoveOne(Pass(w, Lines(w, job.app), true), x, ans.remove(x))
    ensures Diffed(w, job, ans) == CreateInto(Pruned(w, job, ans), job, Wanted(job)[y], ans.put(y).create, ans.pick)
    ensures EgressPass(w, job, ans).w == SlowPath(w, job, Tracked(w, job.app, ans.pick), ans).w
    ensures Current(job, Pruned(w, job, ans).tracked)
  {
    hide Replaced;
    hide Wanted;
    hide Sound;
    hide Recorded;
    hide Lines;
    hide Covers;
    hide Untaken;
    hide WantName;
    hide WantHash;
    hide WholeHash;
    hide AllGood;
    hide Addr;
    hide LiveAddrs;
    hide Tracked;
    hide FastGate;
    hide SlowPath;
    hide EgressPass;
    hide RemoveLoop;
    hide RemoveOne;
    hide PutLoop;
    hide CreateInto;
    ReplacedFacts(w, job, x, y);
    var m := Lines(w, job.app);
    TrackedIsRecord(w, job.app, ans.pick);
    CoversAddresses(w, job.app);
    GateIsOpen(w, job, ans.pick);
    EgressPassCases(w, job, ans);
    RemoveLoopOnly(Pass(w, m, true), Wanted(job).Keys, m.Keys, ans, x);
    Keys.RemoveOneTracked(Pass(w, m, true), x, ans.remove(x));
    PutLoopOnly(Pruned(w, job, ans), job, Wanted(job).Keys, ans, y);
    WantedAddr(job);
    PutCreates(Pruned(w, job, ans), job, Wanted(job)[y], ans.put(y), ans.pick);
  }

  /** The name of every other desired address is borne by its own gateway. */
  lemma ReplacedNames(w: World, job: Job, x: string, y: string, a: string)
    requires Replaced(w, job, x, y) && a in Wanted(job) && a != y
    ensures a in Lines(w, job.app) && Describes(w.services, job.app, a, Lines(w, job.app)[a])
    ensures var s := Lines(w, job.app)[a].serviceId;
            && s in w.services && w.services[s].spec.name == WantName(job, Wanted(job)[a])
            && s != Lines(w, job.app)[x].serviceId && AddrOf(w.services, s) == a
  {
    hide Wanted;
    hide Recorded;
    hide Lines;
    hide Covers;
    hide WantName;
    hide WantHash;
    hide WantSpec;
    hide LiveHash;
    hide TargetAddr;
    hide MarkedFor;
    hide AllGood;
    hide Good;
    hide Addr;
    hide Built;
    hide UniqueNames;
    WantedGood(job);
    var m := Lines(w, job.app);
    var s := m[a].serviceId;
    assert Describes(w.services, job.app, a, m[a]) && Describes(w.services, job.app, x, m[x]);
    HashPinsSpec(job, Wanted(job)[a], w.services[s].spec);
    var secret :| w.services[s].spec == WantSpec(job, Wanted(job)[a], secret);
    WantSpecName(job, Wanted(job)[a], secret);
  }

  lemma ReplacedApart(w: World, job: Job, x: string, y: string)
    requires Replaced(w, job, x, y)
    ensures NamesApart(job)
  {
    hide Replaced;
    hide Wanted;
    hide Sound;
    hide Recorded;
    hide Lines;
    hide Covers;
    hide Untaken;
    hide WantName;
    hide AllGood;
    hide Current;
    hide Describes;
    hide AddrOf;
    ReplacedFacts(w, job, x, y);
    forall a, b | a in Wanted(job) && b in Wanted(job) && a != b
      ensures WantName(job, Wanted(job)[a]) != WantName(job, Wanted(job)[b]) {
      if a != y {
        ReplacedNames(w, job, x, y, a);
      }
      if b != y {
        ReplacedNames(w, job, x, y, b);
      }
      SoundUnique(w, job.cfg, job.app);
    }
  }

  /** Among what is left of the cluster, only the gateway of `x` may still bear the name of
      `y`, and every other wanted name is with its own target. */
  lemma ReplacedFree(w: World, v: Services, job: Job, x: string, y: string)
    requires Replaced(w, job, x, y) && Submap(v, w.services)
    ensures NamesFree(v, job)
  {
    hide Wanted;
    hide Recorded;
    hide Lines;
    hide Covers;
    hide WantName;
    hide WantHash;
    hide LiveHash;
    hide TargetAddr;
    hide MarkedFor;
    hide AllGood;
    hide AllBuilt;
    hide OnePerAddr;
    var m := Lines(w, job.app);
    forall a, s | a in Wanted(job) && s in v && v[s].spec.name == WantName(job, Wanted(job)[a])
      ensures Runs(v, job.app, s) && (AddrOf(v, s) == a || AddrOf(v, s) !in Wanted(job)) {
      if a == y {
        assert s == m[x].serviceId && Describes(w.services, job.app, x, m[x]);
      } else {
        ReplacedNames(w, job, x, y, a);
        assert s == m[a].serviceId && Describes(w.services, job.app, a, m[a]);
      }
    }
  }

  lemma PlacedFree(w: World, w': World, job: Job, y: string, sid: string)
    requires AllGood(job.eg.targets) && NamesApart(job) && NamesFree(w.services, job) && y in Wanted(job)
    requires Placed(w, w', job, Wanted(job)[y], sid) && NothingAt(w.services, job.app, y)
    requires Runs(w.services, job.app, sid) ==> AddrOf(w.services, sid) !in Wanted(job)
    ensures NamesFree(w'.services, job)
  {
    hide Wanted;
    hide WantName;
    hide WantHash;
    hide LiveHash;
    hide TargetAddr;
    hide MarkedFor;
    hide AllGood;
    hide Good;
    hide Addr;
    hide Placed;
    hide Built;
    WantedGood(job);
    PlacedFrame(w, w', job, Wanted(job)[y], sid);
    forall a, s | a in Wanted(job) && s in w'.services && w'.services[s].spec.name == WantName(job, Wanted(job)[a])
      ensures if Runs(w'.services, job.app, s) then AddrOf(w'.services, s) == a || AddrOf(w'.services, s) !in Wanted(job)
              else forall g :: Runs(w'.services, job.app, g) ==> AddrOf(w'.services, g) != a {
      if s != sid {
        assert a != y && s in w.services && w.services[s] == w'.services[s];
      }
    }
  }

  /** What the create of `y` comes to once the removal of `x` has been tried. */
  lemma ReplacedCreate(w: World, job: Job, x: string, y: string, ans: Answers)
    requires Replaced(w, job, x, y) && ans.list
    ensures x in Lines(w, job.app) && y in Wanted(job)
    ensures var p1, p2 := Pruned(w, job, ans), Diffed(w, job, ans);
            var sx := Lines(w, job.app)[x].serviceId;
            && p1.w.services == (if Deleted(ans.remove(x)) then w.services - {sx} else w.services)
            && (p1.tracked == Lines(w, job.app) || (Deleted(ans.remove(x)) && p1.tracked == Lines(w, job.app) - {x}))
            && Sound(p1.w, job.cfg, job.app) && sx in p1.w.ids
            && if y !in p2.tracked
               then p2.w.services == p1.w.services && p2.tracked == p1.tracked && !(!Deleted(ans.remove(x)) && Adopts(w, ans.put(y).create))
               else && p2.tracked == p1.tracked[y := p2.tracked[y]]
                    && Placed(p1.w, p2.w, job, Wanted(job)[y], p2.tracked[y].serviceId)
                    && p2.tracked[y].target == y && p2.tracked[y].hash == WantHash(job, Wanted(job)[y])
                    && if !Deleted(ans.remove(x)) then p2.tracked[y].serviceId == sx && Adopts(w, ans.put(y).create)
                       else p2.tracked[y].serviceId !in p1.w.ids
  {
    hide Replaced;
    hide Wanted;
    hide Sound;
    hide Recorded;
    hide Lines;
    hide Covers;
    hide Untaken;
    hide WantName;
    hide WantHash;
    hide AllGood;
    hide Addr;
    hide Good;
    hide Current;
    hide Pruned;
    hide Diffed;
    hide SlowPath;
    hide EgressPass;
    hide RemoveOne;
    hide CreateGateway;
    hide Adopts;
    hide Placed;
    hide UniqueNames;
    ReplacedFacts(w, job, x, y);
    ReplacedDiff(w, job, x, y, ans);
    WantedAddr(job);
    var m := Lines(w, job.app);
    var p1 := Pruned(w, job, ans);
    var sx := m[x].serviceId;
    RemoveOneExact(Pass(w, m, true), x, ans.remove(x));
    SubmapMinus(w.services, {sx});
    SubmapSound(w, p1.w, job.cfg, job.app);
    SoundIds(w, job.cfg, job.app);
    SoundUnique(w, job.cfg, job.app);
    SoundUnique(p1.w, job.cfg, job.app);
    CreateOutcome(p1.w, job, Wanted(job)[y], ans.put(y).create, ans.pick);
    HoldersOf(w, p1.w, WantName(job, Wanted(job)[y]), sx);
    if !Deleted(ans.remove(x)) {
      AdoptsIff(p1.w, job, Wanted(job)[y], ans.put(y).create, ans.pick);
      SameAdopts(w, p1.w, ans.put(y).create);
      if y in Diffed(w, job, ans).tracked {
        PlacedNamed(p1.w, Diffed(w, job, ans).w, job, Wanted(job)[y], Diffed(w, job, ans).tracked[y].serviceId);
      }
    } else {
      PlacedNewOr(p1.w, job, Wanted(job)[y], ans.put(y).create, ans.pick);
    }
  }

  lemma PlacedNamed(w: World, w': World, job: Job, t: EgressTarget, sid: string)
    requires Placed(w, w', job, t, sid)
    ensures Named(w, WantName(job, t)) <= {sid}
  {
    hide WantName;
    hide WantSpec;
  }

  lemma SameAdopts(w: World, w': World, a: CreateAnswers)
    requires w'.minted == w.minted
    ensures Adopts(w, a) <==> Adopts(w', a)
  {
  }

  lemma HoldersOf(w: World, w': World, name: string, s: string)
    requires UniqueNames(w.services) && s in w.services && w.services[s].spec.name == name
    requires w'.services == w.services || w'.services == w.services - {s}
    ensures Named(w', name) == if s in w'.services then {s} else {}
  {
  }

  lemma PlacedNewOr(w: World, job: Job, t: EgressTarget, a: CreateAnswers, pick: Picker)
    requires Sound(w, job.cfg, job.app) && Named(w, WantName(job, t)) == {}
    ensures var r := CreateGateway(w, job, t, a, pick).1; r.Some? ==> r.value.serviceId !in w.ids
  {
    hide Sound;
    hide WantName;
    hide WantHash;
    hide CreateGateway;
    CreateOutcome(w, job, t, a, pick);
    var (w', r) := CreateGateway(w, job, t, a, pick);
    if r.Some? {
      PlacedNew(w, w', job, t, r.value.serviceId);
    }
  }

  /** After the first pass: everything the next one needs is in order, and at most the line
      of `y` is stuck, exactly if it shares the gateway `x` was to lose. */
  lemma ReplacedAfter(w: World, job: Job, x: string, y: string, ans: Answers)
    requires Replaced(w, job, x, y) && ans.list
    ensures var w1 := EgressPass(w, job, ans).w;
            && Coherent(w1, job.cfg, job.app) && Usable(w1.services, job, Lines(w1, job.app))
            && NamesApart(job) && NamesFree(w1.services, job)
            && (forall a :: StuckAt(w1, job, a) <==>
                  a == y && !Deleted(ans.remove(x)) && Adopts(w, ans.put(y).create))
            && (StuckAt(w1, job, y) ==> !GateOpen(w1, job))
  {
    hide Replaced;
    hide Wanted;
    hide Sound;
    hide Recorded;
    hide Lines;
    hide Covers;
    hide Untaken;
    hide WantName;
    hide WantHash;
    hide WholeHash;
    hide AllGood;
    hide Addr;
    hide Good;
    hide Pruned;
    hide Diffed;
    hide SlowPath;
    hide Tracked;
    hide EgressPass;
    hide Adopts;
    hide Placed;
    hide Coherent;
    hide Usable;
    hide Unshared;
    hide Stranded;
    hide NamesApart;
    hide NamesFree;
    hide StuckAt;
    hide GateOpen;
    ReplacedFacts(w, job, x, y);
    ReplacedDiff(w, job, x, y, ans);
    ReplacedApart(w, job, x, y);
    var w1, p1, p2 := EgressPass(w, job, ans).w, Pruned(w, job, ans), Diffed(w, job, ans);
    CurrentIsUsable(w.services, job, Lines(w, job.app));
    CurrentStrandsNone(p1, job, Wanted(job).Keys, ans);
    SlowPathKeeps(w, job, ans);
    SlowPathCoherent(w, job, ans);
    assert Current(job, p2.tracked);
    CurrentIsUsable(w1.services, job, p2.tracked);
    ReplacedStillFree(w, job, x, y, ans);
    forall a ensures StuckAt(w1, job, a) <==> a == y && !Deleted(ans.remove(x)) && Adopts(w, ans.put(y).create) {
      ReplacedStuck(w, w1, job, x, y, ans, a);
    }
    if StuckAt(w1, job, y) {
      ReplacedCreate(w, job, x, y, ans);
      ExtraLineCloses(w1, job, x);
    }
  }

  lemma ExtraLineCloses(w: World, job: Job, x: string)
    requires x in Lines(w, job.app) && x !in Wanted(job)
    ensures !GateOpen(w, job)
  {
    hide Wanted;
    hide Lines;
    hide LiveAddrs;
    hide WholeHash;
    assert x in Addresses(w, job.app);
  }

  lemma ReplacedStillFree(w: World, job: Job, x: string, y: string, ans: Answers)
    requires Replaced(w, job, x, y) && ans.list
    ensures NamesFree(Diffed(w, job, ans).w.services, job)
  {
    hide Replaced;
    hide Wanted;
    hide Sound;
    hide Recorded;
    hide Lines;
    hide Covers;
    hide Untaken;
    hide WantName;
    hide WantHash;
    hide AllGood;
    hide Pruned;
    hide Diffed;
    hide Adopts;
    hide Placed;
    hide NamesApart;
    hide NamesFree;
    hide Submap;
    hide TargetAddr;
    hide LiveHash;
    hide MarkedFor;
    ReplacedFacts(w, job, x, y);
    ReplacedCreate(w, job, x, y, ans);
    ReplacedApart(w, job, x, y);
    var p1, p2 := Pruned(w, job, ans), Diffed(w, job, ans);
    var sx := Lines(w, job.app)[x].serviceId;
    SubmapMinus(w.services, {sx});
    SameSubmap(w.services);
    ReplacedFree(w, p1.w.services, job, x, y);
    if y in p2.tracked {
      VacantAt(w, p1.w.services, job, x, y);
      SoundIds(p1.w, job.cfg, job.app);
      PlacedFree(p1.w, p2.w, job, y, p2.tracked[y].serviceId);
    }
  }

  lemma SameSubmap(v: Services)
    ensures Submap(v, v)
  {
  }

  /** Nothing of the app runs at `y` yet, and the gateway of `x` runs at no wanted address. */
  lemma VacantAt(w: World, v: Services, job: Job, x: string, y: string)
    requires Replaced(w, job, x, y) && Submap(v, w.services)
    ensures NothingAt(v, job.app, y)
    ensures x in Lines(w, job.app)
    ensures var sx := Lines(w, job.app)[x].serviceId; Runs(v, job.app, sx) ==> AddrOf(v, sx) !in Wanted(job)
  {
    hide Wanted;
    hide Sound;
    hide Recorded;
    hide Lines;
    hide WantName;
    hide WantHash;
    hide LiveHash;
    hide TargetAddr;
    hide MarkedFor;
    hide AllGood;
    assert Describes(w.services, job.app, x, Lines(w, job.app)[x]);
    forall s | Runs(v, job.app, s) ensures AddrOf(v, s) != y {
      assert Runs(w.services, job.app, s);
    }
  }

  /** Every other desired address keeps its gateway and its line, shared with nobody. */
  lemma ReplacedOthers(w: World, job: Job, x: string, y: string, ans: Answers, a: string)
    requires Replaced(w, job, x, y) && ans.list && a in Wanted(job) && a != y
    ensures x in Lines(w, job.app) && a in Lines(w, job.app)
    ensures var p2 := Diffed(w, job, ans);
            && a in p2.tracked && p2.tracked[a] == Lines(w, job.app)[a] && Describes(p2.w.services, job.app, a, p2.tracked[a])
            && p2.tracked[a].serviceId != Lines(w, job.app)[x].serviceId
  {
    hide Replaced;
    hide Wanted;
    hide Sound;
    hide Recorded;
    hide Lines;
    hide Covers;
    hide Untaken;
    hide WantName;
    hide WantHash;
    hide AllGood;
    hide Good;
    hide Addr;
    hide Pruned;
    hide Diffed;
    hide Adopts;
    hide Placed;
    hide LiveHash;
    hide TargetAddr;
    hide MarkedFor;
    hide Current;
    hide Built;
    ReplacedFacts(w, job, x, y);
    ReplacedCreate(w, job, x, y, ans);
    ReplacedNames(w, job, x, y, a);
    var p1, p2 := Pruned(w, job, ans), Diffed(w, job, ans);
    SoundIds(p1.w, job.cfg, job.app);
    if y in p2.tracked {
      WantedGood(job);
      PlacedFrame(p1.w, p2.w, job, Wanted(job)[y], p2.tracked[y].serviceId);
    }
  }

  lemma ReplacedNew(w: World, job: Job, x: string, y: string, ans: Answers)
    requires Replaced(w, job, x, y) && ans.list && y in Diffed(w, job, ans).tracked
    ensures Describes(Diffed(w, job, ans).w.services, job.app, y, Diffed(w, job, ans).tracked[y])
  {
    hide Replaced;
    hide Wanted;
    hide Sound;
    hide Recorded;
    hide Lines;
    hide Covers;
    hide Untaken;
    hide WantName;
    hide WantHash;
    hide AllGood;
    hide Good;
    hide Addr;
    hide Pruned;
    hide Diffed;
    hide Adopts;
    hide Placed;
    hide LiveHash;
    hide TargetAddr;
    hide MarkedFor;
    hide Current;
    hide Built;
    ReplacedFacts(w, job, x, y);
    ReplacedCreate(w, job, x, y, ans);
    WantedGood(job);
    PlacedFrame(Pruned(w, job, ans).w, Diffed(w, job, ans).w, job, Wanted(job)[y], Diffed(w, job, ans).tracked[y].serviceId);
  }

  lemma ReplacedStuck(w: World, w1: World, job: Job, x: string, y: string, ans: Answers, a: string)
    requires Replaced(w, job, x, y) && ans.list
    requires w1.services == Diffed(w, job, ans).w.services && Lines(w1, job.app) == Diffed(w, job, ans).tracked
    ensures StuckAt(w1, job, a) <==> a == y && !Deleted(ans.remove(x)) && Adopts(w, ans.put(y).create)
  {
    hide Replaced;
    hide Wanted;
    hide Sound;
    hide Recorded;
    hide Lines;
    hide Covers;
    hide Untaken;
    hide WantName;
    hide WantHash;
    hide AllGood;
    hide Good;
    hide Addr;
    hide Pruned;
    hide Diffed;
    hide Adopts;
    hide Placed;
    hide Describes;
    hide Deleted;
    hide Current;
    ReplacedFacts(w, job, x, y);
    ReplacedCreate(w, job, x, y, ans);
    StuckIsWanted(w1, job, a);
    if y in Diffed(w, job, ans).tracked {
      ReplacedNew(w, job, x, y, ans);
    }
    if a in Wanted(job) && a != y {
      ReplacedOthers(w, job, x, y, ans, a);
    }
  }

  /** An app exchanges one address for another that wants its gateway's name, and anything
      may fail in the first pass. The next pass, every call succeeding, reports no error and
      is the last to change anything. It leaves the new address without a gateway exactly if
      the deletion of the old gateway had not gone through and its adoption had; in every
      other case it converges. Every other address keeps its gateway. */
  lemma PortChangeLosesGateway(w: World, job: Job, x: string, y: string, faulty: Answers, ans: Answers, script: seq<Answers>)
    requires Replaced(w, job, x, y) && faulty.list && FaultFree(EgressPass(w, job, faulty).w, job, ans)
    ensures var r := EgressPass(EgressPass(w, job, faulty).w, job, ans);
            && r.ok && Passes(r.w, job, script) == r.w
            && (NothingAt(r.w.services, job.app, y) <==> !Deleted(faulty.remove(x)) && Adopts(w, faulty.put(y).create))
            && (forall a :: a in Wanted(job) && a != y ==> !NothingAt(r.w.services, job.app, a))
            && (Converged(r.w, job) <==> !NothingAt(r.w.services, job.app, y))
  {
    hide Replaced;
    hide Wanted;
    hide Sound;
    hide Recorded;
    hide Honest;
    hide Complete;
    hide Lines;
    hide Covers;
    hide Untaken;
    hide WantName;
    hide WantHash;
    hide AllGood;
    hide EgressPass;
    hide Passes;
    hide Adopts;
    hide Usable;
    hide NamesApart;
    hide NamesFree;
    hide StuckAt;
    hide GateOpen;
    hide InOrder;
    hide Converged;
    hide FaultFree;
    hide NothingAt;
    hide Current;
    ReplacedFacts(w, job, x, y);
    ReplacedAfter(w, job, x, y, faulty);
    var w1 := EgressPass(w, job, faulty).w;
    var r := EgressPass(w1, job, ans);
    ConvergesIff(w1, job, ans);
    EgressConverges(w1, job, ans);
    OpenGateIsForever(r.w, job, script);
    if Converged(r.w, job) {
      forall a | a in Wanted(job) ensures !NothingAt(r.w.services, job.app, a) { ConvergedServes(r.w, job, a); }
    } else {
      assert StuckAt(w1, job, y);
    }
  }

  lemma ConvergedServes(w: World, job: Job, a: string)
    requires Converged(w, job) && a in Wanted(job)
    ensures !NothingAt(w.services, job.app, a)
  {
    hide Wanted;
    hide WantHash;
    hide Lines;
    hide TargetAddr;
    hide LiveHash;
    hide MarkedFor;
    hide Converged;
    hide Covers;
    ConvergedOrder(w, job);
    assert Describes(w.services, job.app, a, Lines(w, job.app)[a]);
  }
}
