/** The main results about reconcileEgress. */
module EgressTheorems {
  import opened Text
  import opened Targets
  import opened Gateway
  import opened World
  import opened Egress
  import opened Mirror
  import opened Loops
  import opened Convergence

  /** One running gateway per desired address, each as gatewaySpec builds it up to its auth
      key, and a record that lists exactly those in target order. */
  ghost predicate Converged(w: World, job: Job) {
    var e := EntryOf(w, job.app);
    && e.gatewayHash == WholeHash(job.eg, job.image)
    && StrictlySorted(e.gateways)
    && OnePerAddr(w.services, job.app)
    && (forall r :: r in e.gateways ==>
          r.target in Wanted(job) && Describes(w.services, job.app, r.target, r) && r.hash == WantHash(job, Wanted(job)[r.target]))
    && (forall a :: a in Wanted(job) ==> exists r :: r in e.gateways && r.target == a)
    && (forall s :: Runs(w.services, job.app, s) ==>
          && AddrOf(w.services, s) in Wanted(job)
          && exists secret :: w.services[s].spec == WantSpec(job, Wanted(job)[AddrOf(w.services, s)], secret))
  }

  // ---------- after the loops ----------

  function Pruned(w: World, job: Job, ans: Answers): Pass {
    var tracked := Tracked(w, job.app, ans.pick);
    RemoveLoop(Pass(w, tracked, true), Wanted(job).Keys, tracked.Keys, ans)
  }

  function Diffed(w: World, job: Job, ans: Answers): Pass {
    PutLoop(Pruned(w, job, ans), job, Wanted(job), Wanted(job).Keys, ans)
  }

  lemma SlowPathIs(w: World, job: Job, ans: Answers)
    ensures SlowPath(w, job, Tracked(w, job.app, ans.pick), ans) ==
            Step(Put(Diffed(w, job, ans).w, job.app,
                     EntryOf(w, job.app).(gateways := SortedGateways(Diffed(w, job, ans).tracked, ans.pick),
                                          gatewayHash := WholeHash(job.eg, job.image))),
                 Diffed(w, job, ans).ok)
  {
    hide Tracked;
    hide RemoveLoop;
    hide PutLoop;
    hide SortedGateways;
    hide WholeHash;
    hide Desired;
  }

  ghost predicate SmoothRemoves(ans: Answers) { forall a :: SmoothRemove(ans.remove(a)) }

  /** Once the removals are done, every wanted name can be had. */
  ghost predicate NamesHad(w: World, job: Job, ans: Answers) {
    NamesApart(job) && ClearAll(Pruned(w, job, ans).w.services, job)
  }

  /** The addresses the app has a running gateway for. */
  function LiveAddrs(v: Services, app: string): set<string> {
    set s | s in v && Runs(v, app, s) :: AddrOf(v, s)
  }

  /** The addresses recorded or served. */
  function Addresses(w: World, app: string): set<string> { Lines(w, app).Keys + LiveAddrs(w.services, app) }

  lemma MirrorKeys(w: World, app: string, tracked: map<string, GatewayRef>)
    requires Covers(w.services, app, tracked, {}) && Submap(Lines(w, app), tracked)
    requires forall a :: a in tracked && a !in Lines(w, app) ==> Describes(w.services, app, a, tracked[a])
    ensures tracked.Keys == Addresses(w, app)
  {
    hide TargetAddr;
    hide LiveHash;
    hide MarkedFor;
    hide Lines;
    forall a | a in tracked && a !in Lines(w, app) ensures a in LiveAddrs(w.services, app) {
      assert Describes(w.services, app, a, tracked[a]);
    }
  }

  lemma TrackedKeys(w: World, cfg: Config, app: string, pick: Picker)
    requires Sound(w, cfg, app) && Recorded(w, app)
    ensures Tracked(w, app, pick).Keys == Addresses(w, app)
  {
    hide Tracked;
    hide Addresses;
    hide Describes;
    hide Covers;
    hide AllTracked;
    hide Lines;
    hide Sound;
    hide Recorded;
    TrackedMirrors(w, cfg, app, pick);
    MirrorKeys(w, app, Tracked(w, app, pick));
  }

  // ---------- from the record to the working map and its remains ----------

  lemma TrackedApart(w: World, cfg: Config, app: string, pick: Picker, a: string, b: string)
    requires Sound(w, cfg, app) && Recorded(w, app) && a != b
    requires a in Tracked(w, app, pick) && b in Tracked(w, app, pick) && a !in Lines(w, app)
    ensures Describes(w.services, app, a, Tracked(w, app, pick)[a])
    ensures Tracked(w, app, pick)[a].serviceId != Tracked(w, app, pick)[b].serviceId
  {
    hide Tracked;
    hide Covers;
    hide Lines;
    hide Sound;
    hide Recorded;
    hide LiveHash;
    hide TargetAddr;
    hide MarkedFor;
    TrackedMirrors(w, cfg, app, pick);
  }

  /** What is adopted is running and in nobody else's line, so the record decides. */
  lemma TrackedUsable(w: World, job: Job, pick: Picker)
    requires Sound(w, job.cfg, job.app) && Recorded(w, job.app)
    ensures var tracked, m := Tracked(w, job.app, pick), Lines(w, job.app);
            && (Unshared(w.services, job, m) ==> Unshared(w.services, job, tracked))
            && (Usable(w.services, job, m) ==> Usable(w.services, job, tracked))
            && (Untaken(w.services, job.app, m) ==> Untaken(w.services, job.app, tracked))
  {
    hide Tracked;
    hide Lines;
    hide Sound;
    hide Recorded;
    hide Describes;
    hide WantHash;
    hide Wanted;
    hide Covers;
    hide AllTracked;
    var tracked, m := Tracked(w, job.app, pick), Lines(w, job.app);
    TrackedMirrors(w, job.cfg, job.app, pick);
    forall a, b | a in tracked && b in tracked && a != b && (a !in m || b !in m)
      ensures tracked[a].serviceId != tracked[b].serviceId {
      if a !in m {
        TrackedApart(w, job.cfg, job.app, pick, a, b);
      } else {
        TrackedApart(w, job.cfg, job.app, pick, b, a);
      }
    }
  }

  lemma ShrinkUsable(v: Services, v': Services, job: Job, m: map<string, GatewayRef>, m': map<string, GatewayRef>)
    requires Submap(v', v) && Submap(m', m)
    ensures Unshared(v, job, m) ==> Unshared(v', job, m')
    ensures Usable(v, job, m) ==> Usable(v', job, m')
    ensures Untaken(v, job.app, m) ==> Untaken(v', job.app, m')
  {
    hide LiveHash;
    hide TargetAddr;
    hide MarkedFor;
    hide WantHash;
    hide Wanted;
    forall a | a in m' ensures Describes(v', job.app, a, m'[a]) <==> Describes(v, job.app, a, m[a]) && m[a].serviceId in v' {}
  }

  lemma SubmapMinus<K, V>(m: map<K, V>, gone: set<K>)
    ensures Submap(m - gone, m)
  {
  }

  /** The state when the removals are done, whatever failed. */
  lemma PrunedKeeps(w: World, job: Job, ans: Answers)
    requires Sound(w, job.cfg, job.app) && Recorded(w, job.app)
    ensures var tracked := Tracked(w, job.app, ans.pick);
            var p := Pruned(w, job, ans);
            && Reconciling(p, job.cfg, job.app, {})
            && p.w.ids == w.ids && p.w.minted == w.minted && p.w.store == w.store
            && p.w.services == w.services - RemovedIds(tracked, tracked.Keys - Wanted(job).Keys, ans.remove)
            && (SmoothRemoves(ans) ==> p.tracked.Keys <= Wanted(job).Keys && p.ok)
            && Submap(p.tracked, tracked) && Submap(p.w.services, w.services)
            && tracked.Keys * Wanted(job).Keys <= p.tracked.Keys
  {
    hide Sound;
    hide Recorded;
    hide Tracked;
    hide RemoveLoop;
    hide Wanted;
    hide SmoothRemove;
    hide RemovedIds;
    hide AllTracked;
    hide Covers;
    hide Lines;
    hide Describes;
    var tracked := Tracked(w, job.app, ans.pick);
    TrackedMirrors(w, job.cfg, job.app, ans.pick);
    CoversLinked(w.services, job.app, tracked);
    RemoveLoopKeeps(Pass(w, tracked, true), job.cfg, job.app, Wanted(job).Keys, tracked.Keys, ans);
    SubmapMinus(w.services, RemovedIds(tracked, tracked.Keys - Wanted(job).Keys, ans.remove));
  }

  lemma CoversLinked(v: Services, app: string, tracked: map<string, GatewayRef>)
    requires Covers(v, app, tracked, {})
    ensures Linked(v, app, tracked)
  {
    hide AddrOf;
    hide MarkedFor;
  }

  lemma PrunedUsable(w: World, job: Job, ans: Answers)
    requires Sound(w, job.cfg, job.app) && Recorded(w, job.app)
    ensures var p, m := Pruned(w, job, ans), Lines(w, job.app);
            && (Unshared(w.services, job, m) ==> Unshared(p.w.services, job, p.tracked))
            && (Usable(w.services, job, m) ==> Usable(p.w.services, job, p.tracked))
            && (Untaken(w.services, job.app, m) ==> Untaken(p.w.services, job.app, p.tracked))
  {
    hide Tracked;
    hide Pruned;
    hide Lines;
    hide Sound;
    hide Recorded;
    hide Unshared;
    hide Usable;
    hide Untaken;
    hide Submap;
    hide Reconciling;
    hide RemovedIds;
    PrunedKeeps(w, job, ans);
    TrackedUsable(w, job, ans.pick);
    ShrinkUsable(w.services, Pruned(w, job, ans).w.services, job, Tracked(w, job.app, ans.pick), Pruned(w, job, ans).tracked);
  }

  lemma ClearShrinks(v: Services, v': Services, job: Job)
    requires ClearAll(v, job) && Submap(v', v)
    ensures ClearAll(v', job)
  {
    hide NameClear;
    hide Submap;
    hide Wanted;
    forall a | a in Wanted(job) ensures NameClear(v', job, Wanted(job)[a]) {
      SubmapClear(v, v', job, Wanted(job)[a]);
    }
  }

  lemma FreeBecomesClear(v: Services, p: Pass, job: Job)
    requires NamesFree(v, job) && Submap(p.w.services, v) && AllGood(job.eg.targets)
    requires Reconciling(p, job.cfg, job.app, {}) && p.tracked.Keys <= Wanted(job).Keys
    ensures ClearAll(p.w.services, job)
  {
    hide AddrOf;
    hide MarkedFor;
    hide WantName;
    hide Wanted;
    hide Sound;
    hide AllTracked;
    hide Linked;
    var v' := p.w.services;
    WantedGood(job);
    forall s | s in v' ensures Runs(v', job.app, s) <==> Runs(v, job.app, s) {}
    forall s | s in v' ensures AddrOf(v', s) == AddrOf(v, s) { SameAddr(v, v', s); }
    forall s | Runs(v', job.app, s) ensures AddrOf(v', s) in Wanted(job) {}
    forall a | a in Wanted(job) ensures NameClear(v', job, Wanted(job)[a]) {
      forall s | s in v' && v'[s].spec.name == WantName(job, Wanted(job)[a])
        ensures if Runs(v', job.app, s) then AddrOf(v', s) == a
                else forall g :: Runs(v', job.app, g) ==> AddrOf(v', g) != a {
        assert s in v && v[s].spec.name == WantName(job, Wanted(job)[a]);
        forall g | Runs(v', job.app, g) ensures Runs(v, job.app, g) && AddrOf(v, g) == AddrOf(v', g) {}
      }
    }
  }

  lemma SameAddr(v: Services, v': Services, s: string)
    requires s in v && s in v' && v[s] == v'[s]
    ensures AddrOf(v, s) == AddrOf(v', s)
  {
  }

  lemma SmoothSame(w: World, w': World, todo: set<string>, ans: Answers)
    requires w.minted == w'.minted && w.ids == w'.ids
    ensures SmoothUpdates(w, todo, ans) ==> SmoothUpdates(w', todo, ans)
    ensures SmoothPuts(w, todo, ans) ==> SmoothPuts(w', todo, ans)
  {
    hide Apart;
  }

  /** Names free but for gateways about to go can be had once those are gone. */
  lemma FreeIsHad(w: World, job: Job, ans: Answers)
    requires Sound(w, job.cfg, job.app) && Recorded(w, job.app) && AllGood(job.eg.targets)
    requires NamesApart(job) && NamesFree(w.services, job) && SmoothRemoves(ans)
    ensures NamesHad(w, job, ans)
  {
    hide Sound;
    hide Recorded;
    hide Pruned;
    hide NamesFree;
    hide NamesApart;
    hide ClearAll;
    hide Reconciling;
    hide RemovedIds;
    hide Tracked;
    hide SmoothRemoves;
    PrunedKeeps(w, job, ans);
    FreeBecomesClear(w.services, Pruned(w, job, ans), job);
  }

  /** Which services the removals delete, where no line's service was taken over: the
      gateways of undesired addresses whose deletion goes through. */
  lemma RemovedIff(w: World, job: Job, ans: Answers, s: string)
    requires Sound(w, job.cfg, job.app) && Recorded(w, job.app) && Untaken(w.services, job.app, Lines(w, job.app))
    requires s in w.services
    ensures s !in Pruned(w, job, ans).w.services <==>
            Runs(w.services, job.app, s) && AddrOf(w.services, s) !in Wanted(job) && Deleted(ans.remove(AddrOf(w.services, s)))
  {
    hide Tracked;
    hide Pruned;
    hide Lines;
    hide AllBuilt;
    hide UniqueNames;
    hide Recorded;
    hide Wanted;
    hide LiveHash;
    hide TargetAddr;
    hide MarkedFor;
    hide Reconciling;
    hide Submap;
    PrunedKeeps(w, job, ans);
    TrackedMirrors(w, job.cfg, job.app, ans.pick);
    TrackedUsable(w, job, ans.pick);
    var tracked := Tracked(w, job.app, ans.pick);
    var doomed := RemovedIds(tracked, tracked.Keys - Wanted(job).Keys, ans.remove);
    if s in doomed {
      var b :| b in tracked.Keys - Wanted(job).Keys && Deleted(ans.remove(b)) && tracked[b].serviceId == s;
      assert Describes(w.services, job.app, b, tracked[b]);
    }
    if Runs(w.services, job.app, s) && AddrOf(w.services, s) !in Wanted(job) && Deleted(ans.remove(AddrOf(w.services, s))) {
      var b := AddrOf(w.services, s);
      assert Tracks(w, job.app, b, tracked[b]) && tracked[b].serviceId == s;
    }
  }

  /** The wanted name of the address is free, or with its own target, or with a gateway of an
      undesired address whose deletion goes through, or with a service that is none of the
      app's while the app has no gateway for the target. */
  ghost predicate NameHad(w: World, job: Job, ans: Answers, a: string)
    requires a in Wanted(job)
  {
    var v := w.services;
    forall s :: s in v && v[s].spec.name == WantName(job, Wanted(job)[a]) ==>
      if Runs(v, job.app, s)
      then AddrOf(v, s) == a || (AddrOf(v, s) !in Wanted(job) && Deleted(ans.remove(AddrOf(v, s))))
      else forall g :: Runs(v, job.app, g) ==> AddrOf(v, g) != a
  }

  lemma NameHadIff(w: World, job: Job, ans: Answers, a: string)
    requires Sound(w, job.cfg, job.app) && Recorded(w, job.app) && Untaken(w.services, job.app, Lines(w, job.app))
    requires a in Wanted(job) && Addr(Wanted(job)[a]) == a
    ensures NameClear(Pruned(w, job, ans).w.services, job, Wanted(job)[a]) <==> NameHad(w, job, ans, a)
  {
    hide Sound;
    hide Recorded;
    hide Untaken;
    hide Lines;
    hide Pruned;
    hide Wanted;
    hide WantName;
    hide Addr;
    hide TargetAddr;
    hide MarkedFor;
    hide Tracked;
    hide RemovedIds;
    hide Reconciling;
    hide Deleted;
    PrunedKeeps(w, job, ans);
    var v, v' := w.services, Pruned(w, job, ans).w.services;
    forall s | s in v
      ensures s !in v' <==> Runs(v, job.app, s) && AddrOf(v, s) !in Wanted(job) && Deleted(ans.remove(AddrOf(v, s))) {
      RemovedIff(w, job, ans, s);
    }
    forall s | s in v' ensures (Runs(v', job.app, s) <==> Runs(v, job.app, s)) && AddrOf(v', s) == AddrOf(v, s) {}
    forall g | Runs(v, job.app, g) && AddrOf(v, g) == a ensures Runs(v', job.app, g) {}
  }

  /** Exactly when the wanted names can be had. */
  lemma NamesHadIff(w: World, job: Job, ans: Answers)
    requires Sound(w, job.cfg, job.app) && Recorded(w, job.app) && Untaken(w.services, job.app, Lines(w, job.app))
    ensures NamesHad(w, job, ans) <==> NamesApart(job) && forall a :: a in Wanted(job) ==> NameHad(w, job, ans, a)
  {
    hide Sound;
    hide Recorded;
    hide Untaken;
    hide Lines;
    hide Pruned;
    hide NamesApart;
    hide NameClear;
    hide NameHad;
    hide Wanted;
    hide Addr;
    WantedAddr(job);
    forall a | a in Wanted(job)
      ensures NameClear(Pruned(w, job, ans).w.services, job, Wanted(job)[a]) <==> NameHad(w, job, ans, a) {
      NameHadIff(w, job, ans, a);
    }
  }

  /** The state when both loops are done, whatever the answers and the names. */
  lemma DiffedKeeps(w: World, job: Job, ans: Answers)
    requires Sound(w, job.cfg, job.app) && Recorded(w, job.app) && AllGood(job.eg.targets)
    requires Unshared(w.services, job, Lines(w, job.app))
    ensures var p1, p := Pruned(w, job, ans), Diffed(w, job, ans);
            && Reconciling(p, job.cfg, job.app, Stranded(p1, job, Wanted(job).Keys, ans))
            && PutAll(p1, p, job, Wanted(job).Keys)
            && p.w.store == w.store
  {
    hide Sound;
    hide Recorded;
    hide Pruned;
    hide PutLoop;
    hide Wanted;
    hide Unshared;
    hide Reconciling;
    hide WantHash;
    hide Stranded;
    hide Lines;
    hide AllGood;
    hide Submap;
    hide RemovedIds;
    hide Tracked;
    PrunedKeeps(w, job, ans);
    PrunedUsable(w, job, ans);
    var p1 := Pruned(w, job, ans);
    PutLoopKeeps(p1, job, Wanted(job).Keys, ans, {});
    assert {} + Stranded(p1, job, Wanted(job).Keys, ans) == Stranded(p1, job, Wanted(job).Keys, ans);
  }

  /** And where the names can be had. */
  lemma DiffedCalm(w: World, job: Job, ans: Answers)
    requires Sound(w, job.cfg, job.app) && Recorded(w, job.app) && AllGood(job.eg.targets)
    requires Usable(w.services, job, Lines(w, job.app)) && NamesHad(w, job, ans)
    ensures var p1, p := Pruned(w, job, ans), Diffed(w, job, ans);
            && Calm(p1, p, job, Wanted(job).Keys) && ClearAll(p.w.services, job)
            && (SmoothUpdates(w, Wanted(job).Keys, ans) ==> Stranded(p1, job, Wanted(job).Keys, ans) == {})
            && (SmoothPuts(w, Wanted(job).Keys, ans) && SmoothRemoves(ans) ==> p.tracked.Keys == Wanted(job).Keys && p.ok)
  {
    hide Sound;
    hide Recorded;
    hide Pruned;
    hide PutLoop;
    hide Wanted;
    hide Usable;
    hide Reconciling;
    hide WantHash;
    hide Stranded;
    hide Lines;
    hide AllGood;
    hide ClearAll;
    hide NamesApart;
    hide Calm;
    hide SmoothUpdates;
    hide SmoothRemoves;
    hide Submap;
    hide RemovedIds;
    hide Tracked;
    PrunedKeeps(w, job, ans);
    PrunedUsable(w, job, ans);
    var p1, p := Pruned(w, job, ans), Diffed(w, job, ans);
    SmoothSame(w, p1.w, Wanted(job).Keys, ans);
    PutLoopCalm(p1, job, Wanted(job).Keys, ans, {});
    UsableIsUnshared(p1.w.services, job, p1.tracked);
    PutLoopKeeps(p1, job, Wanted(job).Keys, ans, {});
    if SmoothPuts(w, Wanted(job).Keys, ans) && SmoothRemoves(ans) {
      forall a | a in p.tracked ensures a in Wanted(job) {
        assert a in p.tracked - Wanted(job).Keys <==> a in p1.tracked - Wanted(job).Keys;
      }
    }
  }

  // ---------- after the record is written ----------

  lemma WrittenRecord(w: World, job: Job, ans: Answers)
    requires AllTracked(Diffed(w, job, ans).w, job.app, Diffed(w, job, ans).tracked)
    ensures var p := Diffed(w, job, ans);
            var w' := SlowPath(w, job, Tracked(w, job.app, ans.pick), ans).w;
            && w'.services == p.w.services && w'.ids == p.w.ids
            && EntryOf(w', job.app).gatewayHash == WholeHash(job.eg, job.image)
            && Lines(w', job.app) == p.tracked && StrictlySorted(EntryOf(w', job.app).gateways)
            && job.app in w'.store
  {
    hide SlowPath;
    hide Diffed;
    hide SortedGateways;
    hide WholeHash;
    hide StoreIndex;
    hide Tracked;
    hide StrictlySorted;
    hide Runs;
    hide AddrOf;
    hide LiveHash;
    SlowPathIs(w, job, ans);
    var p := Diffed(w, job, ans);
    SortedGatewaysExact(p.tracked, ans.pick);
  }

  /** A diff keeps a sound state sound and recorded, whatever fails. */
  lemma SlowPathKeeps(w: World, job: Job, ans: Answers)
    requires Sound(w, job.cfg, job.app) && Recorded(w, job.app) && AllGood(job.eg.targets)
    requires Unshared(w.services, job, Lines(w, job.app))
    ensures var p := Diffed(w, job, ans);
            var w' := SlowPath(w, job, Tracked(w, job.app, ans.pick), ans).w;
            && Sound(w', job.cfg, job.app) && Recorded(w', job.app)
            && w'.services == p.w.services && Lines(w', job.app) == p.tracked
            && EntryOf(w', job.app).gatewayHash == WholeHash(job.eg, job.image)
            && Covers(w'.services, job.app, p.tracked, Stranded(Pruned(w, job, ans), job, Wanted(job).Keys, ans))
            && (forall a :: a in Wanted(job) && a in p.tracked ==> p.tracked[a].hash == WantHash(job, Wanted(job)[a]))
  {
    hide Pruned;
    hide Diffed;
    hide SlowPath;
    hide WholeHash;
    hide WantHash;
    hide Tracked;
    hide UniqueNames;
    hide AllBuilt;
    hide OnePerAddr;
    hide Tracks;
    hide Linked;
    hide Covers;
    hide Wanted;
    hide Unshared;
    hide Stranded;
    hide StrictlySorted;
    hide Lines;
    DiffedKeeps(w, job, ans);
    WrittenRecord(w, job, ans);
    var w' := SlowPath(w, job, Tracked(w, job.app, ans.pick), ans).w;
    SameTracks(Diffed(w, job, ans).w, w', job.app, Diffed(w, job, ans).tracked);
    SameSound(Diffed(w, job, ans).w, w', job.cfg, job.app);
  }

  lemma SameTracks(w: World, w': World, app: string, tracked: map<string, GatewayRef>)
    requires AllTracked(w, app, tracked) && w'.services == w.services && w.ids <= w'.ids
    ensures AllTracked(w', app, tracked)
  {
    hide LiveHash;
    hide TargetAddr;
    hide MarkedFor;
    forall a | a in tracked ensures Tracks(w', app, a, tracked[a]) {
      assert Tracks(w, app, a, tracked[a]);
    }
  }

  lemma SameSound(w: World, w': World, cfg: Config, app: string)
    requires Sound(w, cfg, app) && w'.services == w.services && w'.ids == w.ids
    ensures Sound(w', cfg, app)
  {
    hide UniqueNames;
    hide AllBuilt;
    hide OnePerAddr;
  }

  lemma HonestTransfers(w: World, job: Job, other: Job)
    requires HonestFor(w, job) && AllGood(job.eg.targets) && AllGood(other.eg.targets)
    requires other.cfg == job.cfg && other.app == job.app
    requires EntryOf(w, job.app).gatewayHash == WholeHash(job.eg, job.image)
    ensures HonestFor(w, other)
  {
    hide Runs;
    hide AddrOf;
    hide LiveHash;
    hide Good;
    hide Addr;
    hide Hostname;
    hide Lines;
    WholeHashIff(job.eg, other.eg, job.image, other.image);
    if WholeHash(other.eg, other.image) == WholeHash(job.eg, job.image) {
      WantedGood(job);
      WantedGood(other);
      forall a | a in Wanted(other) ensures a in Wanted(job) && WantHash(other, Wanted(other)[a]) == WantHash(job, Wanted(job)[a]) {
        WantedFromAddrs(job, other, a);
        AddrInjective(Wanted(other)[a], Wanted(job)[a]);
      }
    }
  }

  lemma WantedFromAddrs(job: Job, other: Job, a: string)
    requires multiset(Addrs(job.eg.targets)) == multiset(Addrs(other.eg.targets)) && a in Wanted(other)
    ensures a in Wanted(job)
  {
    hide Addr;
    var ts, us := job.eg.targets, other.eg.targets;
    var i :| 0 <= i < |us| && us[i] == Wanted(other)[a];
    assert Addrs(us)[i] == a;
    assert a in multiset(Addrs(us));
    assert a in Addrs(ts);
    var k :| 0 <= k < |ts| && Addrs(ts)[k] == a;
    assert ts[k] in ts && Addr(ts[k]) == a;
  }

  lemma HonestAfter(w: World, job: Job)
    requires AllGood(job.eg.targets) && OnePerAddr(w.services, job.app)
    requires AllTracked(w, job.app, Lines(w, job.app)) && Covers(w.services, job.app, Lines(w, job.app), {})
    requires forall a :: a in Wanted(job) && a in Lines(w, job.app) ==> Lines(w, job.app)[a].hash == WantHash(job, Wanted(job)[a])
    requires EntryOf(w, job.app).gatewayHash == WholeHash(job.eg, job.image)
    ensures Honest(w, job.cfg, job.app)
  {
    hide MarkedFor;
    hide TargetAddr;
    hide LiveHash;
    hide WantHash;
    hide WholeHash;
    hide Wanted;
    hide Lines;
    var tracked := Lines(w, job.app);
    forall s | Runs(w.services, job.app, s) && AddrOf(w.services, s) in Wanted(job)
      ensures LiveHash(w.services[s].spec) == WantHash(job, Wanted(job)[AddrOf(w.services, s)]) {
      var a := AddrOf(w.services, s);
      assert Tracks(w, job.app, a, tracked[a]);
    }
    forall other: Job | other.cfg == job.cfg && other.app == job.app && AllGood(other.eg.targets)
      ensures HonestFor(w, other) {
      HonestTransfers(w, job, other);
    }
  }

  /** If no running gateway's update failed, the diff leaves a coherent state, whatever else
      fails and whatever state it found. */
  lemma SlowPathCoherent(w: World, job: Job, ans: Answers)
    requires Sound(w, job.cfg, job.app) && Recorded(w, job.app) && AllGood(job.eg.targets)
    requires Unshared(w.services, job, Lines(w, job.app)) && Stranded(Pruned(w, job, ans), job, Wanted(job).Keys, ans) == {}
    ensures Coherent(SlowPath(w, job, Tracked(w, job.app, ans.pick), ans).w, job.cfg, job.app)
  {
    hide Pruned;
    hide Diffed;
    hide SlowPath;
    hide WholeHash;
    hide WantHash;
    hide Tracked;
    hide UniqueNames;
    hide AllBuilt;
    hide OnePerAddr;
    hide AllTracked;
    hide Linked;
    hide Covers;
    hide Honest;
    hide Wanted;
    hide Unshared;
    hide Stranded;
    hide Lines;
    hide StrictlySorted;
    SlowPathKeeps(w, job, ans);
    HonestAfter(SlowPath(w, job, Tracked(w, job.app, ans.pick), ans).w, job);
  }

  // ---------- what convergence comes to ----------

  /** The record lists exactly the desired addresses, each with its running gateway and the
      wanted hash. */
  ghost predicate InOrder(w: World, job: Job) {
    var m := Lines(w, job.app);
    m.Keys == Wanted(job).Keys &&
    forall a :: a in m ==> Describes(w.services, job.app, a, m[a]) && m[a].hash == WantHash(job, Wanted(job)[a])
  }

  lemma OrderConverged(w: World, job: Job)
    requires Sound(w, job.cfg, job.app) && Recorded(w, job.app) && AllGood(job.eg.targets) && InOrder(w, job)
    requires EntryOf(w, job.app).gatewayHash == WholeHash(job.eg, job.image) && Covers(w.services, job.app, Lines(w, job.app), {})
    ensures Converged(w, job)
  {
    hide MarkedFor;
    hide TargetAddr;
    hide LiveHash;
    hide WantHash;
    hide WholeHash;
    hide Wanted;
    hide UniqueNames;
    hide StrictlySorted;
    hide AllTracked;
    hide Linked;
    hide Lines;
    hide WantSpec;
    hide Good;
    hide Built;
    var m := Lines(w, job.app);
    LinesAre(w, job.app);
    WantedGood(job);
    forall a | a in Wanted(job) ensures exists r :: r in EntryOf(w, job.app).gateways && r.target == a {
      assert m[a] in EntryOf(w, job.app).gateways;
    }
    forall s | Runs(w.services, job.app, s)
      ensures && AddrOf(w.services, s) in Wanted(job)
              && exists secret :: w.services[s].spec == WantSpec(job, Wanted(job)[AddrOf(w.services, s)], secret) {
      var a := AddrOf(w.services, s);
      assert Describes(w.services, job.app, a, m[a]) && m[a].serviceId == s;
      HashPinsSpec(job, Wanted(job)[a], w.services[s].spec);
    }
  }

  lemma ConvergedOrder(w: World, job: Job)
    requires Converged(w, job)
    ensures EntryOf(w, job.app).gatewayHash == WholeHash(job.eg, job.image)
    ensures InOrder(w, job) && Covers(w.services, job.app, Lines(w, job.app), {})
  {
    hide MarkedFor;
    hide TargetAddr;
    hide LiveHash;
    hide WantHash;
    hide WholeHash;
    hide Wanted;
    hide StrictlySorted;
    hide OnePerAddr;
    hide Lines;
    hide WantSpec;
    LinesAre(w, job.app);
    var m := Lines(w, job.app);
    forall a | a in m ensures a in Wanted(job) && Describes(w.services, job.app, a, m[a]) && m[a].hash == WantHash(job, Wanted(job)[a]) {
      assert m[a] in EntryOf(w, job.app).gateways;
    }
    forall a | a in Wanted(job) ensures a in m {
      var r :| r in EntryOf(w, job.app).gateways && r.target == a;
    }
  }

  /** Under a complete record nothing is left to adopt. */
  lemma TrackedIsRecord(w: World, app: string, pick: Picker)
    requires Covers(w.services, app, Lines(w, app), {})
    ensures Tracked(w, app, pick) == Lines(w, app)
  {
    hide Adopt;
    hide TargetAddr;
    hide MarkedFor;
    hide StoreIndex;
    AdoptNothing(w, app, Lines(w, app), KnownServices(Lines(w, app)), Gateways(w, app), pick);
  }

  lemma {:induction false} AdoptNothing(w: World, app: string, out: map<string, GatewayRef>, known: set<string>, todo: set<string>, pick: Picker)
    requires todo <= Gateways(w, app) && Covers(w.services, app, out, {})
    ensures Adopt(w, out, known, todo, pick) == out
    decreases todo
  {
    hide TargetAddr;
    hide LiveHash;
    hide MarkedFor;
    if todo != {} {
      var s := pick(todo);
      assert Runs(w.services, app, s) && AddrOf(w.services, s) in out;
      AdoptNothing(w, app, out, known, todo - {s}, pick);
    }
  }

  // ---------- exactly when a fault-free pass converges ----------

  /** The fast path's test, said of the state: recorded hash and addresses are the job's. */
  ghost predicate GateOpen(w: World, job: Job) {
    EntryOf(w, job.app).gatewayHash == WholeHash(job.eg, job.image) && Addresses(w, job.app) == Wanted(job).Keys
  }

  lemma GateIsOpen(w: World, job: Job, pick: Picker)
    requires Sound(w, job.cfg, job.app) && Recorded(w, job.app)
    ensures FastGate(job, EntryOf(w, job.app), Tracked(w, job.app, pick), Wanted(job)) <==> GateOpen(w, job)
  {
    hide Tracked;
    hide FastGate;
    hide Sound;
    hide Recorded;
    hide Addresses;
    hide Wanted;
    hide WholeHash;
    TrackedKeys(w, job.cfg, job.app, pick);
    GateIff(job, EntryOf(w, job.app), Tracked(w, job.app, pick), Wanted(job));
  }

  /** A line that passes for up to date although nothing serves its address, or although its
      service is also in a line about to be removed. */
  ghost predicate StuckAt(w: World, job: Job, a: string) {
    var m := Lines(w, job.app);
    && a in m && a in Wanted(job) && m[a].hash == WantHash(job, Wanted(job)[a])
    && (|| !Describes(w.services, job.app, a, m[a])
        || exists b :: b in m && b !in Wanted(job) && m[b].serviceId == m[a].serviceId)
  }

  ghost predicate Stuck(w: World, job: Job) { exists a :: StuckAt(w, job, a) }

  /** All calls of the pass succeed, with fresh key and service IDs. */
  ghost predicate FaultFree(w: World, job: Job, ans: Answers) {
    ans.list && SmoothRemoves(ans) && SmoothPuts(w, Wanted(job).Keys, ans)
  }

  /** What the removals leave of a desired line's gateway, when they all succeed. */
  lemma PrunedDescribes(w: World, job: Job, ans: Answers, a: string)
    requires Sound(w, job.cfg, job.app) && Recorded(w, job.app) && SmoothRemoves(ans) && a in Wanted(job)
    ensures var p := Pruned(w, job, ans);
            a in p.tracked && p.tracked[a].hash == WantHash(job, Wanted(job)[a]) && !Describes(p.w.services, job.app, a, p.tracked[a]) <==>
            StuckAt(w, job, a)
  {
    hide Sound;
    hide Recorded;
    hide Tracked;
    hide Pruned;
    hide Wanted;
    hide WantHash;
    hide LiveHash;
    hide TargetAddr;
    hide MarkedFor;
    hide Reconciling;
    hide Lines;
    hide Covers;
    hide AllTracked;
    PrunedKeeps(w, job, ans);
    TrackedMirrors(w, job.cfg, job.app, ans.pick);
    var tracked, m, p := Tracked(w, job.app, ans.pick), Lines(w, job.app), Pruned(w, job, ans);
    var doomed := RemovedIds(tracked, tracked.Keys - Wanted(job).Keys, ans.remove);
    if a in tracked {
      assert p.tracked[a] == tracked[a];
      var sid := tracked[a].serviceId;
      assert Describes(p.w.services, job.app, a, tracked[a]) <==> Describes(w.services, job.app, a, tracked[a]) && sid !in doomed;
      if sid in doomed {
        var b :| b in tracked.Keys - Wanted(job).Keys && tracked[b].serviceId == sid;
        if a !in m || b !in m {
          LinesApart(w, job, ans.pick, a, b);
        }
      }
      if b :| b in m && b !in Wanted(job) && m[b].serviceId == sid {
        assert SmoothRemove(ans.remove(b)) && tracked[b].serviceId in doomed;
      }
    }
  }

  lemma LinesApart(w: World, job: Job, pick: Picker, a: string, b: string)
    requires Sound(w, job.cfg, job.app) && Recorded(w, job.app) && a != b
    requires a in Tracked(w, job.app, pick) && b in Tracked(w, job.app, pick) && (a !in Lines(w, job.app) || b !in Lines(w, job.app))
    ensures Tracked(w, job.app, pick)[a].serviceId != Tracked(w, job.app, pick)[b].serviceId
  {
    hide Sound;
    hide Recorded;
    hide Tracked;
    hide Lines;
    hide Describes;
    if a !in Lines(w, job.app) {
      TrackedApart(w, job.cfg, job.app, pick, a, b);
    } else {
      TrackedApart(w, job.cfg, job.app, pick, b, a);
    }
  }

  lemma CalmLapses(p: Pass, p': Pass, job: Job, a: string)
    requires Calm(p, p', job, Wanted(job).Keys) && a in Wanted(job)
    ensures a in p'.tracked && !Describes(p'.w.services, job.app, a, p'.tracked[a]) <==>
            a in p.tracked && !Describes(p.w.services, job.app, a, p.tracked[a]) && p.tracked[a].hash == WantHash(job, Wanted(job)[a])
  {
    hide Describes;
    hide Runs;
    hide AddrOf;
    hide Wanted;
    hide WantHash;
    hide Untaken;
  }

  /** The diff of a fault-free pass: the record ends up listing the desired addresses, and
      each has its gateway but for those stuck. */
  lemma SlowPathOrder(w: World, job: Job, ans: Answers)
    requires Sound(w, job.cfg, job.app) && Recorded(w, job.app) && AllGood(job.eg.targets)
    requires Usable(w.services, job, Lines(w, job.app)) && NamesHad(w, job, ans) && FaultFree(w, job, ans)
    ensures var s := SlowPath(w, job, Tracked(w, job.app, ans.pick), ans);
            && s.ok && Coherent(s.w, job.cfg, job.app) && GateOpen(s.w, job)
            && (forall a :: a in Wanted(job) ==> (NothingAt(s.w.services, job.app, a) <==> StuckAt(w, job, a)))
            && (Converged(s.w, job) <==> !Stuck(w, job))
  {
    hide Sound;
    hide Recorded;
    hide Tracked;
    hide Pruned;
    hide Diffed;
    hide SlowPath;
    hide Wanted;
    hide WantHash;
    hide WholeHash;
    hide Describes;
    hide Lines;
    hide Usable;
    hide Unshared;
    hide NamesHad;
    hide Calm;
    hide ClearAll;
    hide SmoothUpdates;
    hide SmoothCreate;
    hide SmoothRemoves;
    hide Stranded;
    hide Covers;
    hide Converged;
    hide Honest;
    hide AllGood;
    hide StuckAt;
    hide LiveAddrs;
    UsableIsUnshared(w.services, job, Lines(w, job.app));
    DiffedCalm(w, job, ans);
    SlowPathKeeps(w, job, ans);
    SlowPathIs(w, job, ans);
    SlowPathCoherent(w, job, ans);
    var w', p1, p := SlowPath(w, job, Tracked(w, job.app, ans.pick), ans).w, Pruned(w, job, ans), Diffed(w, job, ans);
    CoversAddresses(w', job.app);
    forall a | a in Wanted(job) ensures Describes(p.w.services, job.app, a, p.tracked[a]) <==> !StuckAt(w, job, a) {
      CalmLapses(p1, p, job, a);
      PrunedDescribes(w, job, ans, a);
    }
    forall a | a in Wanted(job) ensures NothingAt(w'.services, job.app, a) <==> StuckAt(w, job, a) {
      RecordedAt(w', job.app, a);
    }
    forall a | a !in Wanted(job) ensures !StuckAt(w, job, a) { StuckIsWanted(w, job, a); }
    if !Stuck(w, job) {
      OrderConverged(w', job);
    }
    if Converged(w', job) {
      ConvergedOrder(w', job);
    }
  }

  /** A line describes its gateway, or nothing runs there. */
  lemma RecordedAt(w: World, app: string, a: string)
    requires Recorded(w, app) && a in Lines(w, app)
    ensures NothingAt(w.services, app, a) <==> !Describes(w.services, app, a, Lines(w, app)[a])
  {
    hide LiveHash;
    hide TargetAddr;
    hide MarkedFor;
    hide Lines;
    hide StrictlySorted;
    hide Linked;
    assert Tracks(w, app, a, Lines(w, app)[a]);
  }

  lemma StuckIsWanted(w: World, job: Job, a: string)
    ensures StuckAt(w, job, a) ==> a in Wanted(job)
  {
    hide Wanted;
    hide Lines;
    hide WantHash;
    hide Describes;
  }

  lemma CoversAddresses(w: World, app: string)
    requires Covers(w.services, app, Lines(w, app), {})
    ensures Addresses(w, app) == Lines(w, app).Keys
  {
    hide MarkedFor;
    hide TargetAddr;
    hide Lines;
  }

  /** Exactly when a fault-free pass converges, from any sound and recorded state, be there
      failed updates or half removals behind it: if the gate is open, when the record is in
      order already; if it is closed, when no desired line is stuck. */
  lemma ConvergesIff(w: World, job: Job, ans: Answers)
    requires Sound(w, job.cfg, job.app) && Recorded(w, job.app) && Usable(w.services, job, Lines(w, job.app))
    requires GoodJob(job) && NamesApart(job) && NamesFree(w.services, job) && FaultFree(w, job, ans)
    ensures var s := EgressPass(w, job, ans);
            && s.ok && Sound(s.w, job.cfg, job.app) && Recorded(s.w, job.app) && GateOpen(s.w, job)
            && (!GateOpen(w, job) ==>
                  forall a :: a in Wanted(job) ==> (NothingAt(s.w.services, job.app, a) <==> StuckAt(w, job, a)))
            && (Converged(s.w, job) <==> if GateOpen(w, job) then InOrder(w, job) else !Stuck(w, job))
  {
    hide Tracked;
    hide SlowPath;
    hide FastGate;
    hide Converged;
    hide Sound;
    hide Recorded;
    hide Honest;
    hide Complete;
    hide NamesFree;
    hide NamesApart;
    hide NamesHad;
    hide SmoothPuts;
    hide SmoothRemoves;
    hide Usable;
    hide Lines;
    hide Stuck;
    hide InOrder;
    hide Wanted;
    GateIsOpen(w, job, ans.pick);
    WantedIs(job);
    if GateOpen(w, job) {
      OpenPass(w, job, ans);
      OpenConverges(w, job);
    } else {
      hide GateOpen;
      FreeIsHad(w, job, ans);
      SlowPathOrder(w, job, ans);
    }
  }

  lemma WantedIs(job: Job)
    ensures Wanted(job) == Desired(job.eg.targets)
  {
  }

  /** Through an open gate nothing is written. */
  lemma OpenPass(w: World, job: Job, ans: Answers)
    requires FastGate(job, EntryOf(w, job.app), Tracked(w, job.app, ans.pick), Wanted(job))
    ensures EgressPass(w, job, ans) == Step(w, job.image != "" && ans.list)
  {
    hide Tracked;
    hide SlowPath;
    hide FastGate;
    hide Desired;
    var prev := EntryOf(w, job.app);
    GateHash(job, prev, Tracked(w, job.app, ans.pick));
    SetHashStored(w, job);
    assert Put(w, job.app, prev) == w;
  }

  lemma OpenConverges(w: World, job: Job)
    requires Sound(w, job.cfg, job.app) && Recorded(w, job.app) && AllGood(job.eg.targets) && GateOpen(w, job)
    ensures Converged(w, job) <==> InOrder(w, job)
  {
    hide Sound;
    hide Recorded;
    hide Converged;
    hide Lines;
    hide Wanted;
    hide WantHash;
    hide WholeHash;
    hide Describes;
    hide MarkedFor;
    hide TargetAddr;
    if InOrder(w, job) {
      OrderConverged(w, job);
    }
    if Converged(w, job) {
      ConvergedOrder(w, job);
    }
  }

  /** On a coherent state the two cases are one. */
  lemma CoherentOrder(w: World, job: Job)
    requires Coherent(w, job.cfg, job.app) && AllGood(job.eg.targets) && GateOpen(w, job)
    ensures Lines(w, job.app).Keys == Wanted(job).Keys && Covers(w.services, job.app, Lines(w, job.app), {})
    ensures forall a :: a in Lines(w, job.app) ==> Lines(w, job.app)[a].hash == WantHash(job, Wanted(job)[a])
    ensures InOrder(w, job) <==> !Stuck(w, job)
  {
    hide Sound;
    hide Recorded;
    hide Lines;
    hide Wanted;
    hide WantHash;
    hide WholeHash;
    hide Describes;
    hide Covers;
    hide LiveAddrs;
    WholeHashIsSet(job);
    CoversAddresses(w, job.app);
    assert HonestFor(w, job);
    if InOrder(w, job) {
      forall a ensures !StuckAt(w, job, a) {}
    } else {
      var a :| a in Lines(w, job.app) && !Describes(w.services, job.app, a, Lines(w, job.app)[a]);
      assert StuckAt(w, job, a);
    }
  }

  /** Convergence: from a coherent state whose names can be had, one fault-free pass reports
      no error and converges, under every map order, exactly if no desired line is stuck. */
  lemma EgressConverges(w: World, job: Job, ans: Answers)
    requires Coherent(w, job.cfg, job.app) && Usable(w.services, job, Lines(w, job.app))
    requires GoodJob(job) && NamesApart(job) && NamesFree(w.services, job) && FaultFree(w, job, ans)
    ensures var s := EgressPass(w, job, ans);
            && s.ok && GateOpen(s.w, job) && Sound(s.w, job.cfg, job.app) && Recorded(s.w, job.app)
            && (Converged(s.w, job) <==> !Stuck(w, job))
  {
    hide EgressPass;
    hide Converged;
    hide Sound;
    hide Recorded;
    hide Honest;
    hide Complete;
    hide NamesFree;
    hide NamesApart;
    hide FaultFree;
    hide Usable;
    hide Lines;
    hide Stuck;
    hide InOrder;
    hide GateOpen;
    ConvergesIff(w, job, ans);
    if GateOpen(w, job) {
      CoherentOrder(w, job);
    }
  }

  // ---------- a pass through an open gate, and the diff it saves ----------

  /** Once recorded hash and addresses agree with the job, every further pass changes nothing
      at all: no Docker write, no key minted or expired, whatever the outside world answers. */
  lemma OpenIsIdle(w: World, job: Job, ans: Answers)
    requires Sound(w, job.cfg, job.app) && Recorded(w, job.app) && GateOpen(w, job) && job.image != ""
    ensures EgressPass(w, job, ans) == Step(w, ans.list)
  {
    hide EgressPass;
    hide Tracked;
    hide FastGate;
    hide Sound;
    hide Recorded;
    hide GateOpen;
    hide Wanted;
    GateIsOpen(w, job, ans.pick);
    OpenPass(w, job, ans);
  }

  lemma ConvergedIsOpen(w: World, job: Job)
    requires Converged(w, job)
    ensures GateOpen(w, job)
  {
    hide Converged;
    hide Describes;
    hide Covers;
    hide WantHash;
    hide WholeHash;
    hide Wanted;
    hide Lines;
    hide LiveAddrs;
    ConvergedOrder(w, job);
    CoversAddresses(w, job.app);
  }

  /** The pass after convergence is idle. */
  lemma ConvergedIsIdle(w: World, job: Job, ans: Answers)
    requires Sound(w, job.cfg, job.app) && Recorded(w, job.app) && job.image != "" && Converged(w, job)
    ensures EgressPass(w, job, ans) == Step(w, ans.list)
  {
    hide EgressPass;
    hide Sound;
    hide Recorded;
    hide GateOpen;
    hide Converged;
    ConvergedIsOpen(w, job);
    OpenIsIdle(w, job, ans);
  }

  /** On a coherent state an open gate means convergence, but for stuck lines. */
  lemma GateMeansConverged(w: World, job: Job, pick: Picker)
    requires Coherent(w, job.cfg, job.app) && AllGood(job.eg.targets)
    requires FastGate(job, EntryOf(w, job.app), Tracked(w, job.app, pick), Wanted(job))
    ensures Converged(w, job) <==> !Stuck(w, job)
  {
    hide Tracked;
    hide FastGate;
    hide Converged;
    hide Wanted;
    hide Sound;
    hide Recorded;
    hide Honest;
    hide Complete;
    hide InOrder;
    hide Stuck;
    hide Lines;
    hide GateOpen;
    GateIsOpen(w, job, pick);
    OpenConverges(w, job);
    CoherentOrder(w, job);
  }

  lemma {:induction false} RemoveLoopIdle(p: Pass, keep: set<string>, todo: set<string>, ans: Answers)
    requires todo <= p.tracked.Keys && todo <= keep
    ensures RemoveLoop(p, keep, todo, ans) == p
    decreases todo
  {
    if todo != {} {
      RemoveLoopIdle(p, keep, todo - {ans.pick(todo)}, ans);
    }
  }

  lemma {:induction false} PutLoopIdle(p: Pass, job: Job, todo: set<string>, ans: Answers)
    requires todo <= Wanted(job).Keys && AllGood(job.eg.targets)
    requires forall a :: a in todo ==> a in p.tracked && p.tracked[a].hash == WantHash(job, Wanted(job)[a])
    ensures PutLoop(p, job, Wanted(job), todo, ans) == p
    decreases todo
  {
    hide WantHash;
    hide CreateInto;
    hide UpdateGateway;
    hide Addr;
    if todo != {} {
      WantedGood(job);
      PutLoopIdle(p, job, todo - {ans.pick(todo)}, ans);
    }
  }

  lemma SameFirst(a: seq<GatewayRef>, b: seq<GatewayRef>)
    requires StrictlySorted(a) && StrictlySorted(b) && a != [] && a[0] in b && b != [] && b[0] in a
    ensures a[0] == b[0]
  {
    hide Leq;
    var k :| 0 <= k < |b| && b[k] == a[0];
    var m :| 0 <= m < |a| && a[m] == b[0];
    LeqTotal(a[0].target, b[0].target);
  }

  lemma SortedTail(a: seq<GatewayRef>)
    requires StrictlySorted(a) && a != []
    ensures StrictlySorted(a[1..]) && a == [a[0]] + a[1..] && forall r :: r in a[1..] <==> r in a && r != a[0]
  {
    hide Leq;
    assert forall i :: 0 <= i < |a[1..]| ==> a[1..][i] == a[i + 1];
  }

  lemma {:induction false} StrictlySortedUnique(a: seq<GatewayRef>, b: seq<GatewayRef>)
    requires StrictlySorted(a) && StrictlySorted(b) && forall r :: r in a <==> r in b
    ensures a == b
  {
    hide StrictlySorted;
    assert a != [] ==> a[0] in b;
    assert b != [] ==> b[0] in a;
    if a != [] {
      SameFirst(a, b);
      SortedTail(a);
      SortedTail(b);
      StrictlySortedUnique(a[1..], b[1..]);
    }
  }

  /** The fast path refines the slow path: whenever the gate opens on a coherent state,
      running the diff instead would have returned the very same world. */
  lemma FastPathRefinesSlow(w: World, job: Job, ans: Answers)
    requires Coherent(w, job.cfg, job.app) && GoodJob(job)
    requires FastGate(job, EntryOf(w, job.app), Tracked(w, job.app, ans.pick), Wanted(job))
    ensures SlowPath(w, job, Tracked(w, job.app, ans.pick), ans) == Step(w, true)
    ensures ans.list ==> EgressPass(w, job, ans) == Step(w, true)
  {
    hide Tracked;
    hide FastGate;
    hide RemoveLoop;
    hide PutLoop;
    hide SortedGateways;
    hide Wanted;
    hide WantHash;
    hide WholeHash;
    hide Describes;
    hide SlowPath;
    hide EgressPass;
    hide Honest;
    hide Sound;
    hide Complete;
    hide Lines;
    hide Stuck;
    hide InOrder;
    hide GateOpen;
    hide Covers;
    hide StrictlySorted;
    hide AllTracked;
    hide Linked;
    GateIsOpen(w, job, ans.pick);
    CoherentOrder(w, job);
    TrackedIsRecord(w, job.app, ans.pick);
    OpenPass(w, job, ans);
    var tracked := Tracked(w, job.app, ans.pick);
    var p := Pass(w, tracked, true);
    RemoveLoopIdle(p, Wanted(job).Keys, tracked.Keys, ans);
    PutLoopIdle(p, job, Wanted(job).Keys, ans);
    var e := EntryOf(w, job.app);
    RecordedSorted(w, job.app, ans.pick);
    SlowPathIs(w, job, ans);
    GateHash(job, e, tracked);
    SetHashStored(w, job);
    assert Put(w, job.app, e) == w;
  }

  lemma GateHash(job: Job, prev: Entry, tracked: map<string, GatewayRef>)
    requires FastGate(job, prev, tracked, Wanted(job))
    ensures prev.gatewayHash == WholeHash(job.eg, job.image)
  {
    hide WholeHash;
  }

  lemma RecordedSorted(w: World, app: string, pick: Picker)
    requires StrictlySorted(EntryOf(w, app).gateways)
    ensures SortedGateways(Lines(w, app), pick) == EntryOf(w, app).gateways
  {
    hide SortedGateways;
    hide Lines;
    hide StoreIndex;
    hide StrictlySorted;
    LinesAre(w, app);
    SortedGatewaysExact(Lines(w, app), pick);
    StrictlySortedUnique(SortedGateways(Lines(w, app), pick), EntryOf(w, app).gateways);
  }

  lemma SetHashStored(w: World, job: Job)
    requires EntryOf(w, job.app).gatewayHash == WholeHash(job.eg, job.image)
    ensures job.app in w.store
  {
  }

  // ---------- healing ----------

  /** No running gateway's update fails in the pass. Creates, removals (also between deleting
      the service and expiring its key), mints, lookups and the listing may fail at will. */
  ghost predicate NoneStranded(w: World, job: Job, ans: Answers) {
    || job.image == "" || !ans.list
    || FastGate(job, EntryOf(w, job.app), Tracked(w, job.app, ans.pick), Wanted(job))
    || Stranded(Pruned(w, job, ans), job, Wanted(job).Keys, ans) == {}
  }

  /** A pass either leaves the world alone or takes the slow path. */
  lemma EgressPassCases(w: World, job: Job, ans: Answers)
    ensures var w' := EgressPass(w, job, ans).w;
            if job.image == "" || !ans.list || FastGate(job, EntryOf(w, job.app), Tracked(w, job.app, ans.pick), Wanted(job))
            then w' == w
            else w' == SlowPath(w, job, Tracked(w, job.app, ans.pick), ans).w
  {
    hide Tracked;
    hide FastGate;
    hide SlowPath;
    hide Desired;
    if FastGate(job, EntryOf(w, job.app), Tracked(w, job.app, ans.pick), Wanted(job)) {
      OpenPass(w, job, ans);
    }
  }

  /** Every pass keeps a sound state sound and recorded, whatever the answers and the names. */
  lemma PassKeeps(w: World, job: Job, ans: Answers)
    requires Sound(w, job.cfg, job.app) && Recorded(w, job.app) && AllGood(job.eg.targets)
    requires Unshared(w.services, job, Lines(w, job.app))
    ensures var w' := EgressPass(w, job, ans).w;
            Sound(w', job.cfg, job.app) && Recorded(w', job.app)
  {
    hide EgressPass;
    hide SlowPath;
    hide Tracked;
    hide FastGate;
    hide Sound;
    hide Recorded;
    hide Unshared;
    hide Wanted;
    hide Covers;
    hide Stranded;
    hide Pruned;
    hide Diffed;
    EgressPassCases(w, job, ans);
    SlowPathKeeps(w, job, ans);
  }

  /** And coherence, as long as it strands no gateway. */
  lemma CoherenceKept(w: World, job: Job, ans: Answers)
    requires Coherent(w, job.cfg, job.app) && AllGood(job.eg.targets)
    requires Unshared(w.services, job, Lines(w, job.app)) && NoneStranded(w, job, ans)
    ensures Coherent(EgressPass(w, job, ans).w, job.cfg, job.app)
  {
    hide EgressPass;
    hide SlowPath;
    hide Tracked;
    hide FastGate;
    hide Sound;
    hide Recorded;
    hide Honest;
    hide Complete;
    hide Unshared;
    hide Wanted;
    hide Stranded;
    hide Pruned;
    EgressPassCases(w, job, ans);
    if EgressPass(w, job, ans).w != w {
      SlowPathCoherent(w, job, ans);
    }
  }

  lemma ClearIsFree(w: World, job: Job)
    requires ClearAll(w.services, job)
    ensures NamesFree(w.services, job)
  {
    hide MarkedFor;
    hide TargetAddr;
    hide WantName;
    hide Addr;
    WantedAddr(job);
    forall a, s | a in Wanted(job) && s in w.services && w.services[s].spec.name == WantName(job, Wanted(job)[a])
      ensures if Runs(w.services, job.app, s) then AddrOf(w.services, s) == a
              else forall g :: Runs(w.services, job.app, g) ==> AddrOf(w.services, g) != a {
      assert NameClear(w.services, job, Wanted(job)[a]);
    }
  }

  lemma WantedAddr(job: Job)
    ensures forall a :: a in Wanted(job) ==> Addr(Wanted(job)[a]) == a
  {
  }

  lemma ClearIsHad(w: World, job: Job, ans: Answers)
    requires Sound(w, job.cfg, job.app) && Recorded(w, job.app) && NamesApart(job) && ClearAll(w.services, job)
    ensures NamesHad(w, job, ans)
  {
    hide Sound;
    hide Recorded;
    hide Pruned;
    hide NamesApart;
    hide ClearAll;
    hide Reconciling;
    hide RemovedIds;
    hide Tracked;
    hide Submap;
    PrunedKeeps(w, job, ans);
    ClearShrinks(w.services, Pruned(w, job, ans).w.services, job);
  }

  /** What passes with the same labels keep between them, whatever fails: every lapsed line's
      service is gone, and no wanted name is with a gateway that is to stay. */
  ghost predicate Kept(w: World, job: Job) {
    && Sound(w, job.cfg, job.app) && Recorded(w, job.app)
    && Untaken(w.services, job.app, Lines(w, job.app)) && NamesFree(w.services, job)
  }

  /** The pass changes nothing, or the names it wants can be had in it. */
  ghost predicate NamesFit(w: World, job: Job, ans: Answers) {
    EgressPass(w, job, ans).w == w || NamesHad(w, job, ans)
  }

  /** Where no line's service was taken over, removals of other lines touch no desired one. */
  lemma PrunedStuck(w: World, job: Job, ans: Answers, a: string)
    requires Sound(w, job.cfg, job.app) && Recorded(w, job.app) && a in Wanted(job)
    requires Untaken(w.services, job.app, Lines(w, job.app))
    ensures var p := Pruned(w, job, ans);
            a in p.tracked && p.tracked[a].hash == WantHash(job, Wanted(job)[a]) && !Describes(p.w.services, job.app, a, p.tracked[a]) <==>
            StuckAt(w, job, a)
  {
    hide Sound;
    hide Recorded;
    hide Tracked;
    hide Pruned;
    hide Wanted;
    hide WantHash;
    hide LiveHash;
    hide TargetAddr;
    hide MarkedFor;
    hide Reconciling;
    hide Lines;
    hide Covers;
    hide AllTracked;
    PrunedKeeps(w, job, ans);
    TrackedMirrors(w, job.cfg, job.app, ans.pick);
    TrackedUsable(w, job, ans.pick);
    var tracked, m, p := Tracked(w, job.app, ans.pick), Lines(w, job.app), Pruned(w, job, ans);
    var doomed := RemovedIds(tracked, tracked.Keys - Wanted(job).Keys, ans.remove);
    if a in tracked {
      assert p.tracked[a] == tracked[a];
      var sid := tracked[a].serviceId;
      if Describes(w.services, job.app, a, tracked[a]) {
        forall b | b in tracked && b != a ensures tracked[b].serviceId != sid {
          assert Describes(w.services, job.app, b, tracked[b]) || tracked[b].serviceId !in w.services;
        }
        assert sid !in doomed;
      }
    }
  }

  lemma StuckNow(w: World, job: Job, a: string)
    requires Untaken(w.services, job.app, Lines(w, job.app))
    ensures StuckAt(w, job, a) <==>
            && a in Lines(w, job.app) && a in Wanted(job) && Lines(w, job.app)[a].hash == WantHash(job, Wanted(job)[a])
            && !Describes(w.services, job.app, a, Lines(w, job.app)[a])
  {
    hide Lines;
    hide Wanted;
    hide WantHash;
    hide LiveHash;
    hide TargetAddr;
    hide MarkedFor;
    var m := Lines(w, job.app);
    if b :| a in m && b in m && b != a && m[b].serviceId == m[a].serviceId {
      assert Describes(w.services, job.app, b, m[b]) || m[b].serviceId !in w.services;
    }
  }

  lemma SlowPathStuck(w: World, job: Job, ans: Answers)
    requires Kept(w, job) && AllGood(job.eg.targets) && NamesHad(w, job, ans)
    ensures var w' := SlowPath(w, job, Tracked(w, job.app, ans.pick), ans).w;
            Kept(w', job) && ClearAll(w'.services, job) && forall a :: StuckAt(w', job, a) <==> StuckAt(w, job, a)
  {
    hide Sound;
    hide Recorded;
    hide Tracked;
    hide Pruned;
    hide Diffed;
    hide SlowPath;
    hide Wanted;
    hide WantHash;
    hide WholeHash;
    hide Describes;
    hide Lines;
    hide Usable;
    hide Unshared;
    hide NamesHad;
    hide ClearAll;
    hide SmoothUpdates;
    hide SmoothPuts;
    hide SmoothRemoves;
    hide Stranded;
    hide Covers;
    hide AllGood;
    hide StuckAt;
    hide Untaken;
    hide Calm;
    hide NamesFree;
    UntakenIsUsable(w.services, job, Lines(w, job.app));
    UsableIsUnshared(w.services, job, Lines(w, job.app));
    DiffedCalm(w, job, ans);
    SlowPathKeeps(w, job, ans);
    PrunedUsable(w, job, ans);
    var w', p1, p := SlowPath(w, job, Tracked(w, job.app, ans.pick), ans).w, Pruned(w, job, ans), Diffed(w, job, ans);
    CalmUntaken(p1, p, job);
    ClearIsFree(w', job);
    forall a ensures StuckAt(w', job, a) <==> StuckAt(w, job, a) {
      StuckIsWanted(w, job, a);
      StuckIsWanted(w', job, a);
      if a in Wanted(job) {
        StuckNow(w', job, a);
        CalmLapses(p1, p, job, a);
        PrunedStuck(w, job, ans, a);
      }
    }
  }

  lemma CalmUntaken(p: Pass, p': Pass, job: Job)
    requires Calm(p, p', job, Wanted(job).Keys) && Untaken(p.w.services, job.app, p.tracked)
    ensures Untaken(p'.w.services, job.app, p'.tracked)
  {
    hide Describes;
    hide Runs;
    hide AddrOf;
    hide Wanted;
    hide WantHash;
    hide Untaken;
  }

  /** Where the names can be had, a diff takes over no service a line still names. */
  lemma UntakenAfter(w: World, job: Job, ans: Answers)
    requires Sound(w, job.cfg, job.app) && Recorded(w, job.app) && AllGood(job.eg.targets)
    requires Untaken(w.services, job.app, Lines(w, job.app)) && NamesHad(w, job, ans)
    ensures var w' := SlowPath(w, job, Tracked(w, job.app, ans.pick), ans).w;
            Sound(w', job.cfg, job.app) && Recorded(w', job.app) && Untaken(w'.services, job.app, Lines(w', job.app))
  {
    hide SlowPath;
    hide Tracked;
    hide Sound;
    hide Recorded;
    hide Wanted;
    hide WantHash;
    hide WholeHash;
    hide Covers;
    hide Lines;
    hide AllGood;
    hide Unshared;
    hide Usable;
    hide Untaken;
    hide NamesHad;
    hide Stranded;
    hide Pruned;
    hide Diffed;
    hide Calm;
    hide ClearAll;
    hide SmoothUpdates;
    hide SmoothRemoves;
    UntakenIsUsable(w.services, job, Lines(w, job.app));
    UsableIsUnshared(w.services, job, Lines(w, job.app));
    SlowPathKeeps(w, job, ans);
    PrunedUsable(w, job, ans);
    DiffedCalm(w, job, ans);
    CalmUntaken(Pruned(w, job, ans), Diffed(w, job, ans), job);
  }

  /** A pass with the same labels that can have its names, whatever fails in it, sticks no
      line and frees none, and from then on the names are clear. */
  lemma PassStuck(w: World, job: Job, ans: Answers)
    requires Kept(w, job) && AllGood(job.eg.targets) && NamesFit(w, job, ans)
    ensures var w' := EgressPass(w, job, ans).w;
            && Kept(w', job) && (w' == w || ClearAll(w'.services, job))
            && forall a :: StuckAt(w', job, a) <==> StuckAt(w, job, a)
  {
    hide EgressPass;
    hide SlowPath;
    hide Tracked;
    hide FastGate;
    hide Kept;
    hide StuckAt;
    hide NamesHad;
    hide ClearAll;
    EgressPassCases(w, job, ans);
    if EgressPass(w, job, ans).w != w {
      SlowPathStuck(w, job, ans);
    }
  }

  /** Any number of further passes with the same labels. */
  function Passes(w: World, job: Job, script: seq<Answers>): World
    decreases script
  {
    if script == [] then w else Passes(EgressPass(w, job, script[0]).w, job, script[1..])
  }

  /** The first of the passes that changes anything can have its names. */
  ghost predicate StartsFit(w: World, job: Job, script: seq<Answers>)
    decreases script
  {
    script == [] ||
    if EgressPass(w, job, script[0]).w == w then StartsFit(w, job, script[1..]) else NamesHad(w, job, script[0])
  }

  /** As it always can where every wanted name is free or with its own target. */
  lemma {:induction false} ClearFits(w: World, job: Job, script: seq<Answers>)
    requires Sound(w, job.cfg, job.app) && Recorded(w, job.app) && NamesApart(job) && ClearAll(w.services, job)
    ensures StartsFit(w, job, script)
    decreases script
  {
    hide EgressPass;
    hide Sound;
    hide Recorded;
    hide NamesApart;
    hide ClearAll;
    hide NamesHad;
    if script != [] {
      ClearIsHad(w, job, script[0]);
      ClearFits(w, job, script[1..]);
    }
  }

  /** One step of such a series: the pass has its names, and so have the rest. */
  lemma FitStep(w: World, job: Job, script: seq<Answers>)
    requires Kept(w, job) && AllGood(job.eg.targets) && NamesApart(job) && StartsFit(w, job, script) && script != []
    ensures var w' := EgressPass(w, job, script[0]).w;
            && NamesFit(w, job, script[0]) && Kept(w', job) && StartsFit(w', job, script[1..])
            && forall a :: StuckAt(w', job, a) <==> StuckAt(w, job, a)
  {
    hide EgressPass;
    hide Sound;
    hide Recorded;
    hide Untaken;
    hide NamesFree;
    hide Lines;
    hide StuckAt;
    hide NamesApart;
    hide NamesHad;
    hide ClearAll;
    PassStuck(w, job, script[0]);
    var w' := EgressPass(w, job, script[0]).w;
    if w' != w {
      ClearFits(w', job, script[1..]);
    }
  }

  lemma {:induction false} PassesStuck(w: World, job: Job, script: seq<Answers>)
    requires Kept(w, job) && AllGood(job.eg.targets) && NamesApart(job) && StartsFit(w, job, script)
    ensures var w' := Passes(w, job, script);
            Kept(w', job) && (Stuck(w', job) <==> Stuck(w, job))
    decreases script
  {
    hide EgressPass;
    hide Kept;
    hide StuckAt;
    hide NamesApart;
    hide StartsFit;
    hide NamesFit;
    if script != [] {
      FitStep(w, job, script);
      PassesStuck(EgressPass(w, job, script[0]).w, job, script[1..]);
    }
  }

  lemma KeptUsable(w: World, job: Job)
    requires Kept(w, job)
    ensures Usable(w.services, job, Lines(w, job.app)) && Unshared(w.services, job, Lines(w, job.app))
    ensures NamesFree(w.services, job) && Sound(w, job.cfg, job.app) && Recorded(w, job.app)
  {
    hide Sound;
    hide Recorded;
    hide Untaken;
    hide NamesFree;
    hide Lines;
    hide Usable;
    hide Unshared;
    UntakenIsUsable(w.services, job, Lines(w, job.app));
    UsableIsUnshared(w.services, job, Lines(w, job.app));
  }

  /** After any number of passes in which anything at all failed, updates included, one
      fault-free pass converges exactly if no line was stuck to begin with and the gate those
      passes left is not open over a record out of order. Every pass after it is idle. */
  lemma ConvergesAfterAnyFaults(w: World, job: Job, faults: seq<Answers>, ans: Answers, later: Answers)
    requires Kept(w, job) && GoodJob(job) && NamesApart(job) && StartsFit(w, job, faults)
    requires FaultFree(Passes(w, job, faults), job, ans)
    ensures var w1 := Passes(w, job, faults);
            var r := EgressPass(w1, job, ans);
            && r.ok && EgressPass(r.w, job, later) == Step(r.w, later.list)
            && (Converged(r.w, job) <==> !Stuck(w, job) && (GateOpen(w1, job) ==> InOrder(w1, job)))
  {
    hide EgressPass;
    hide Passes;
    hide Kept;
    hide NamesApart;
    hide NamesFree;
    hide FaultFree;
    hide Converged;
    hide Sound;
    hide Recorded;
    hide Usable;
    hide Unshared;
    hide Lines;
    hide GateOpen;
    hide InOrder;
    hide Stuck;
    hide StartsFit;
    PassesStuck(w, job, faults);
    var w1 := Passes(w, job, faults);
    KeptUsable(w1, job);
    ConvergesIff(w1, job, ans);
    OpenIsIdle(EgressPass(w1, job, ans).w, job, later);
    if InOrder(w1, job) {
      OrderNotStuck(w1, job);
    }
  }

  lemma OrderNotStuck(w: World, job: Job)
    requires InOrder(w, job)
    ensures !Stuck(w, job)
  {
    hide Lines;
    hide Wanted;
    hide WantHash;
    hide Describes;
  }

  /** None of the passes strands a gateway. */
  ghost predicate NoneStrandedIn(w: World, job: Job, script: seq<Answers>)
    decreases script
  {
    script == [] ||
    (NoneStranded(w, job, script[0]) && NoneStrandedIn(EgressPass(w, job, script[0]).w, job, script[1..]))
  }

  lemma {:induction false} PassesCoherent(w: World, job: Job, script: seq<Answers>)
    requires Coherent(w, job.cfg, job.app) && Kept(w, job) && AllGood(job.eg.targets) && NamesApart(job)
    requires StartsFit(w, job, script) && NoneStrandedIn(w, job, script)
    ensures Coherent(Passes(w, job, script), job.cfg, job.app)
    decreases script
  {
    hide EgressPass;
    hide Kept;
    hide StuckAt;
    hide NamesApart;
    hide Coherent;
    hide NoneStranded;
    hide Usable;
    hide Unshared;
    hide NamesFree;
    hide Sound;
    hide Recorded;
    hide StartsFit;
    hide NamesFit;
    if script != [] {
      KeptUsable(w, job);
      CoherenceKept(w, job, script[0]);
      FitStep(w, job, script);
      PassesCoherent(EgressPass(w, job, script[0]).w, job, script[1..]);
    }
  }

  /** Healing: after any number of passes in which any creates, removals, mints, lookups and
      listings failed, one fault-free pass converges, exactly if no line was stuck to begin
      with. */
  lemma HealsAfterAnyFaults(w: World, job: Job, faults: seq<Answers>, ans: Answers, later: Answers)
    requires Coherent(w, job.cfg, job.app) && Kept(w, job) && GoodJob(job) && NamesApart(job) && StartsFit(w, job, faults)
    requires NoneStrandedIn(w, job, faults) && FaultFree(Passes(w, job, faults), job, ans)
    ensures var r := EgressPass(Passes(w, job, faults), job, ans);
            && r.ok && EgressPass(r.w, job, later) == Step(r.w, later.list)
            && (Converged(r.w, job) <==> !Stuck(w, job))
  {
    hide EgressPass;
    hide Passes;
    hide Kept;
    hide NamesApart;
    hide FaultFree;
    hide Converged;
    hide Coherent;
    hide GateOpen;
    hide InOrder;
    hide Stuck;
    hide NoneStrandedIn;
    hide StartsFit;
    ConvergesAfterAnyFaults(w, job, faults, ans, later);
    PassesCoherent(w, job, faults);
    PassesStuck(w, job, faults);
    if GateOpen(Passes(w, job, faults), job) {
      CoherentOrder(Passes(w, job, faults), job);
    }
  }

  /** One such pass. */
  lemma EgressHeals(w: World, job: Job, faulty: Answers, ans: Answers)
    requires Coherent(w, job.cfg, job.app) && Kept(w, job) && GoodJob(job) && NamesApart(job) && NamesFit(w, job, faulty)
    requires NoneStranded(w, job, faulty) && FaultFree(EgressPass(w, job, faulty).w, job, ans)
    ensures Converged(EgressPass(EgressPass(w, job, faulty).w, job, ans).w, job) <==> !Stuck(w, job)
  {
    hide EgressPass;
    hide Kept;
    hide NamesApart;
    hide NamesHad;
    hide FaultFree;
    hide Converged;
    hide Coherent;
    hide NoneStranded;
    hide Stuck;
    assert [faulty][1..] == [];
    assert Passes(w, job, [faulty]) == EgressPass(w, job, faulty).w by {
      assert Passes(EgressPass(w, job, faulty).w, job, []) == EgressPass(w, job, faulty).w;
    }
    assert NoneStrandedIn(w, job, [faulty]);
    assert StartsFit(w, job, [faulty]) by { assert StartsFit(w, job, []); }
    HealsAfterAnyFaults(w, job, [faulty], ans, ans);
  }

  /** An empty record over running gateways is coherent, whatever runs. */
  lemma EmptyRecordCoherent(w: World, cfg: Config, app: string)
    requires Sound(w, cfg, app) && EntryOf(w, app).gateways == [] && EntryOf(w, app).gatewayHash == NoSetHash
    ensures Coherent(w, cfg, app) && Lines(w, app) == map[]
  {
    hide Sound;
    hide Tracks;
    hide Leq;
    forall job: Job | job.cfg == cfg && job.app == app ensures HonestFor(w, job) {
      WholeHashIsSet(job);
    }
  }

  /** After a daemon restart the store is empty while the gateways run on: a coherent state
      with nothing stuck, from which the next pass adopts them. */
  lemma RestartIsCoherent(w: World, cfg: Config, app: string)
    requires Sound(w, cfg, app) && app !in w.store
    ensures Coherent(w, cfg, app) && Lines(w, app) == map[]
  {
    hide Sound;
    hide Coherent;
    EmptyRecordCoherent(w, cfg, app);
  }

  lemma WholeHashIsSet(job: Job)
    ensures WholeHash(job.eg, job.image) != NoSetHash
  {
  }

  /** Answers without a fault, each address with its own key and service IDs. */
  function AllGoesWell(pick: Picker): Answers {
    Answers(pick, true, _ => RemoveAnswers(true, true, true),
            a => PutAnswers(UpdateAnswers(true, true, Some(Key("u" + a, "secret")), true),
                            CreateAnswers(true, Some(Key("c" + a, "secret")), Some("s" + a), LookupHit, true)))
  }

  lemma AllGoesWellIsFaultFree(w: World, job: Job, pick: Picker)
    requires w.minted == {} && w.ids == {}
    ensures FaultFree(w, job, AllGoesWell(pick))
  {
    hide Wanted;
    var ans := AllGoesWell(pick);
    forall a, b | a in Wanted(job) && b in Wanted(job) && a != b
      ensures KeyIds(ans.put(a)) !! KeyIds(ans.put(b)) && NewIds(ans.put(a)) !! NewIds(ans.put(b)) {
      assert ("u" + a)[1..] == a && ("c" + a)[1..] == a && ("s" + a)[1..] == a;
      assert ("u" + b)[1..] == b && ("c" + b)[1..] == b && ("s" + b)[1..] == b;
    }
    forall a | a in Wanted(job) ensures SmoothUpdate(w, ans.put(a).update) && SmoothCreate(w, ans.put(a).create) {}
  }

  /** A cold start on an empty cluster converges for every well-formed job whose names
      differ, so the hypotheses of EgressConverges can be met for all of them. */
  lemma ColdStartConverges(w: World, job: Job, pick: Picker)
    requires w.store == map[] && w.services == map[] && w.minted == {} && w.ids == {}
    requires GoodJob(job) && NamesApart(job)
    ensures Converged(EgressPass(w, job, AllGoesWell(pick)).w, job)
  {
    hide AllGoesWell;
    hide FaultFree;
    hide EgressPass;
    hide Converged;
    hide Coherent;
    hide NamesApart;
    hide AllGood;
    AllGoesWellIsFaultFree(w, job, pick);
    assert Sound(w, job.cfg, job.app);
    RestartIsCoherent(w, job.cfg, job.app);
    assert NamesFree(w.services, job);
    UntakenIsUsable(w.services, job, Lines(w, job.app));
    EgressConverges(w, job, AllGoesWell(pick));
    assert !Stuck(w, job);
  }
}
