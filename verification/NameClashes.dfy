/** What happens when gateway names are not separated. A gateway's name leaves out the port,
    and a create that finds its name taken adopts the holder, whoever that is. */
module NameClashes {
  import opened Targets
  import opened Gateway
  import opened World
  import opened Egress
  import opened Reconcile
  import opened Mirror
  import opened Loops
  import opened Convergence
  import opened EgressTheorems
  import opened Teardowns
  import Proxies
  import Keys

  // ---------- names within one job ----------

  /** Distinct hosts, all within the length cap, get distinct names. */
  lemma DistinctHostsApart(job: Job)
    requires EightHex(job.cfg.digest)
    requires forall t :: t in job.eg.targets ==> Short(job.eg.hostname, t)
    requires forall t, u :: t in job.eg.targets && u in job.eg.targets && t.host == u.host ==> t == u
    ensures NamesApart(job)
  {
    hide ServiceName;
    hide Addr;
    forall a, b | a in Wanted(job) && b in Wanted(job) && a != b
      ensures WantName(job, Wanted(job)[a]) != WantName(job, Wanted(job)[b]) {
      NamesCollideIff(job.cfg, job.eg.hostname, Wanted(job)[a], Wanted(job)[b]);
    }
  }

  /** Separate names are necessary: where two desired targets share a name, no state Docker
      allows is a converged one. */
  lemma SharedNameNeverConverges(w: World, job: Job)
    requires UniqueNames(w.services) && Converged(w, job)
    ensures NamesApart(job)
  {
    hide TargetAddr;
    hide LiveHash;
    hide WantHash;
    hide MarkedFor;
    hide WholeHash;
    hide OnePerAddr;
    hide StrictlySorted;
    hide WantName;
    hide WantSpec;
    hide Desired;
    forall a, b | a in Wanted(job) && b in Wanted(job) && a != b
      ensures WantName(job, Wanted(job)[a]) != WantName(job, Wanted(job)[b]) {
      var r :| r in EntryOf(w, job.app).gateways && r.target == a;
      var q :| q in EntryOf(w, job.app).gateways && q.target == b;
      NamedAsWanted(w, job, r.serviceId);
      NamedAsWanted(w, job, q.serviceId);
    }
  }

  lemma NamedAsWanted(w: World, job: Job, s: string)
    requires Converged(w, job) && Runs(w.services, job.app, s)
    ensures AddrOf(w.services, s) in Wanted(job)
    ensures w.services[s].spec.name == WantName(job, Wanted(job)[AddrOf(w.services, s)])
  {
    hide TargetAddr;
    hide LiveHash;
    hide WantHash;
    hide MarkedFor;
    hide WholeHash;
    hide OnePerAddr;
    hide StrictlySorted;
    hide WantName;
    hide WantSpec;
    hide Desired;
    var secret :| w.services[s].spec == WantSpec(job, Wanted(job)[AddrOf(w.services, s)], secret);
    WantSpecName(job, Wanted(job)[AddrOf(w.services, s)], secret);
  }

  // ---------- a record that satisfies the gate keeps it open for ever ----------

  lemma {:induction false} AdoptKnown(w: World, out: map<string, GatewayRef>, known: set<string>, todo: set<string>, pick: Picker)
    requires todo <= w.services.Keys && todo <= known
    ensures Adopt(w, out, known, todo, pick) == out
    decreases todo
  {
    hide TargetAddr;
    hide LiveHash;
    if todo != {} {
      AdoptKnown(w, out, known, todo - {pick(todo)}, pick);
    }
  }

  /** Every gateway of the app that still runs is in the record. */
  ghost predicate AllKnown(w: World, app: string) {
    Gateways(w, app) <= KnownServices(StoreIndex(EntryOf(w, app).gateways))
  }

  lemma KnownTracked(w: World, app: string, pick: Picker)
    requires AllKnown(w, app)
    ensures Tracked(w, app, pick) == StoreIndex(EntryOf(w, app).gateways)
  {
    hide StoreIndex;
    hide Adopt;
    var out := StoreIndex(EntryOf(w, app).gateways);
    AdoptKnown(w, out, KnownServices(out), Gateways(w, app), pick);
  }

  /** The gate never asks whether the recorded gateways run. */
  lemma {:induction false} RecordIsForever(w: World, job: Job, script: seq<Answers>)
    requires AllKnown(w, job.app) && EntryOf(w, job.app).gatewayHash == WholeHash(job.eg, job.image)
    requires StoreIndex(EntryOf(w, job.app).gateways).Keys == Wanted(job).Keys
    ensures Passes(w, job, script) == w
  {
    hide Tracked;
    hide SlowPath;
    hide FastGate;
    hide StoreIndex;
    hide Wanted;
    hide Desired;
    hide AllKnown;
    if script != [] {
      var ans := script[0];
      KnownTracked(w, job.app, ans.pick);
      GateIff(job, EntryOf(w, job.app), Tracked(w, job.app, ans.pick), Wanted(job));
      EgressPassCases(w, job, ans);
      assert EgressPass(w, job, ans).w == w;
      RecordIsForever(w, job, script[1..]);
    }
  }

  // ---------- passes with one or two targets ----------

  lemma OneTarget(job: Job, t: EgressTarget)
    requires job.eg.targets == [t]
    ensures Wanted(job) == map[Addr(t) := t]
  {
    hide Addr;
    assert job.eg.targets[..0] == [];
    assert Desired([]) == map[];
  }

  lemma TwoTargets(job: Job, t: EgressTarget, u: EgressTarget)
    requires job.eg.targets == [t, u]
    ensures Wanted(job) == map[Addr(t) := t, Addr(u) := u]
  {
    hide Addr;
    assert [t, u][..1] == [t] && [t][..0] == [];
    assert Desired([]) == map[];
    assert Desired([t]) == map[Addr(t) := t];
  }

  lemma PutLoopOne(p: Pass, job: Job, desired: map<string, EgressTarget>, a: string, ans: Answers)
    requires a in desired
    ensures PutLoop(p, job, desired, {a}, ans) == PutOne(p, job, desired[a], ans.put(a), ans.pick)
  {
    hide PutOne;
    assert ans.pick({a}) == a;
    assert {a} - {a} == {};
    var p1 := PutOne(p, job, desired[a], ans.put(a), ans.pick);
    assert PutLoop(p1, job, desired, {}, ans) == p1;
  }

  /** After the record is written from `p`. */
  lemma RecordOf(w: World, job: Job, ans: Answers)
    requires Keys.Keyed(Diffed(w, job, ans).tracked)
    ensures var p := Diffed(w, job, ans);
            var w' := SlowPath(w, job, Tracked(w, job.app, ans.pick), ans).w;
            && w'.services == p.w.services && w'.ids == p.w.ids && w'.minted == p.w.minted
            && w'.store - {job.app} == p.w.store - {job.app}
            && EntryOf(w', job.app).gatewayHash == WholeHash(job.eg, job.image)
            && StoreIndex(EntryOf(w', job.app).gateways) == p.tracked
            && |EntryOf(w', job.app).gateways| == |p.tracked|
  {
    hide SlowPath;
    hide Diffed;
    hide SortedGateways;
    hide WholeHash;
    hide StoreIndex;
    hide Tracked;
    SlowPathIs(w, job, ans);
    SortedGatewaysExact(Diffed(w, job, ans).tracked, ans.pick);
  }

  /** The calls of a create succeed as far as an adoption needs them. */
  predicate Adopts(w: World, a: CreateAnswers) {
    a.wait && FreshKey(w, a.key) && a.id.Some? && a.lookup == LookupHit && a.update
  }

  /** A create whose name is held takes the holder over exactly then. */
  lemma AdoptsIff(w: World, job: Job, t: EgressTarget, a: CreateAnswers, pick: Picker)
    requires UniqueNames(w.services) && Named(w, WantName(job, t)) != {}
    ensures CreateGateway(w, job, t, a, pick).1.Some? <==> Adopts(w, a)
  {
    hide WantSpec;
    hide WantName;
    hide WantHash;
    hide Addr;
    if a.wait {
      var (w1, key) := Mint(w, a.key);
      if key.Some? {
        WantSpecName(job, t, key.value.secret);
        SameNamed(w, w1, WantName(job, t));
        var holders := Named(w1, WantName(job, t));
        forall s, s' | s in holders && s' in holders ensures s == s' {}
        assert holders <= {pick(holders)};
      }
    }
  }

  lemma SoundUnique(w: World, cfg: Config, app: string)
    requires Sound(w, cfg, app)
    ensures UniqueNames(w.services)
  {
    hide UniqueNames;
    hide OnePerAddr;
    hide AllBuilt;
  }

  lemma SmoothAdopts(w: World, a: CreateAnswers)
    requires SmoothCreate(w, a)
    ensures Adopts(w, a)
  {
  }

  lemma CreateTakesOver(p: Pass, job: Job, t: EgressTarget, a: CreateAnswers, pick: Picker, s: string)
    requires Sound(p.w, job.cfg, job.app) && Adopts(p.w, a)
    requires Good(t) && s in p.w.services && p.w.services[s].spec.name == WantName(job, t)
    ensures var p' := CreateInto(p, job, t, a, pick);
            && Addr(t) in p'.tracked && p'.tracked == p.tracked[Addr(t) := p'.tracked[Addr(t)]]
            && p'.tracked[Addr(t)].serviceId == s && p'.tracked[Addr(t)].target == Addr(t)
            && p'.tracked[Addr(t)].hash == WantHash(job, t)
            && Placed(p.w, p'.w, job, t, s) && p'.w.services.Keys == p.w.services.Keys
            && p'.w.store == p.w.store && p'.ok == p.ok
  {
    hide CreateGateway;
    hide Sound;
    hide WantName;
    hide WantHash;
    hide Addr;
    hide Adopts;
    hide UniqueNames;
    CreateOutcome(p.w, job, t, a, pick);
    SoundUnique(p.w, job.cfg, job.app);
    assert s in Named(p.w, WantName(job, t));
    AdoptsIff(p.w, job, t, a, pick);
  }

  lemma NoGateways(w: World, app: string)
    requires w.services == map[]
    ensures Gateways(w, app) == {} && forall cfg :: w.services.Keys <= w.ids ==> Sound(w, cfg, app)
  {
  }

  /** The first of two creates in an empty cluster. */
  lemma FirstCreate(p: Pass, job: Job, t: EgressTarget, a: CreateAnswers, pick: Picker)
    requires p.w.services == map[] && SmoothCreate(p.w, a) && Good(t)
    ensures var p' := CreateInto(p, job, t, a, pick);
            && Addr(t) in p'.tracked && p'.tracked == p.tracked[Addr(t) := p'.tracked[Addr(t)]]
            && p'.tracked[Addr(t)].target == Addr(t)
            && (var s := p'.tracked[Addr(t)].serviceId;
                p'.w.services.Keys == {s} && p'.w.services[s].spec.name == WantName(job, t))
            && Sound(p'.w, job.cfg, job.app) && p'.w.store == p.w.store
  {
    hide CreateGateway;
    hide WantName;
    hide WantHash;
    hide TargetAddr;
    hide LiveHash;
    hide MarkedFor;
    hide Built;
    hide SmoothCreate;
    NoGateways(p.w, job.app);
    CreateOutcome(p.w, job, t, a, pick);
    var (w', r) := CreateGateway(p.w, job, t, a, pick);
    var s := r.value.serviceId;
    PlacedFrame(p.w, w', job, t, s);
    PlacedSound(p.w, w', job, t, s);
  }

  /** Both creates: one service, tracked under both addresses. */
  ghost predicate Doubled(p: Pass, wanted: set<string>) {
    && p.tracked.Keys == wanted && Keys.Keyed(p.tracked)
    && exists s :: p.w.services.Keys == {s} && forall a :: a in p.tracked ==> p.tracked[a].serviceId == s
  }

  lemma CreateIntoUses(p: Pass, job: Job, t: EgressTarget, a: PutAnswers, pick: Picker)
    ensures var w' := CreateInto(p, job, t, a.create, pick).w;
            w'.minted <= p.w.minted + KeyIds(a) && w'.ids <= p.w.ids + NewIds(a)
  {
    hide CreateGateway;
    CreateUses(p.w, job, t, a, pick);
  }

  lemma TwoCreates(p: Pass, job: Job, a: string, b: string, ans: Answers)
    requires a != b && a in Wanted(job) && b in Wanted(job) && ans.pick({a, b}) == a && AllGood(job.eg.targets)
    requires WantName(job, Wanted(job)[a]) == WantName(job, Wanted(job)[b])
    requires p.w.services == map[] && p.tracked == map[] && SmoothPuts(p.w, {a, b}, ans)
    ensures Doubled(PutLoop(p, job, Wanted(job), {a, b}, ans), {a, b})
  {
    hide PutLoop;
    hide CreateInto;
    hide Sound;
    hide SmoothCreate;
    hide WantName;
    hide WantHash;
    hide Good;
    hide Wanted;
    hide Addr;
    hide Placed;
    hide PutOne;
    hide Apart;
    hide SmoothUpdate;
    hide KeyIds;
    hide NewIds;
    WantedGood(job);
    var ta, tb := Wanted(job)[a], Wanted(job)[b];
    var p1 := CreateInto(p, job, ta, ans.put(a).create, ans.pick);
    FirstCreate(p, job, ta, ans.put(a).create, ans.pick);
    CreateIntoUses(p, job, ta, ans.put(a), ans.pick);
    SmoothLater(p.w, p1.w, {a, b}, a, ans);
    assert {a, b} - {a} == {b};
    var s := p1.tracked[a].serviceId;
    SmoothAdopts(p1.w, ans.put(b).create);
    hide Adopts;
    CreateTakesOver(p1, job, tb, ans.put(b).create, ans.pick, s);
    PutLoopTwo(p, job, Wanted(job), a, b, ans);
  }

  /** Two targets on one host, empty cluster, every call succeeding: the second create takes
      the first one's gateway over. One gateway runs where two are recorded, the pass
      reports success, and no later pass does anything about it. */
  lemma TwoPortsOneGateway(w: World, job: Job, t: EgressTarget, u: EgressTarget, ans: Answers, script: seq<Answers>)
    requires job.eg.targets == [t, u] && t.host == u.host && Addr(t) != Addr(u) && Good(t) && Good(u)
    requires Short(job.eg.hostname, t) && EightHex(job.cfg.digest) && job.image != ""
    requires w.services == map[] && w.store == map[] && FaultFree(w, job, ans)
    ensures var w1 := EgressPass(w, job, ans).w;
            && (exists s :: w1.services.Keys == {s})
            && |EntryOf(w1, job.app).gateways| == 2
            && !Converged(w1, job)
            && Passes(w1, job, script) == w1
  {
    hide Tracked;
    hide RemoveLoop;
    hide PutLoop;
    hide SlowPath;
    hide EgressPass;
    hide Passes;
    hide StoreIndex;
    hide Converged;
    hide SmoothPuts;
    hide WantName;
    hide WantHash;
    hide WholeHash;
    hide Wanted;
    hide FastGate;
    hide Addr;
    hide AllKnown;
    hide NamesApart;
    NamesCollideIff(job.cfg, job.eg.hostname, t, u);
    SameHostSameName(job, t, u);
    TwoTargets(job, t, u);
    EmptyTracked(w, job.app, ans.pick);
    GateIff(job, EntryOf(w, job.app), Tracked(w, job.app, ans.pick), Wanted(job));
    assert Addr(t) in Wanted(job);
    EgressPassCases(w, job, ans);
    var p0 := Pass(w, map[], true);
    assert Pruned(w, job, ans) == p0 by { RemoveLoopIdle(p0, Wanted(job).Keys, {}, ans); }
    var a := ans.pick(Wanted(job).Keys);
    var b := if a == Addr(t) then Addr(u) else Addr(t);
    assert Wanted(job).Keys == {a, b};
    TwoCreates(p0, job, a, b, ans);
    RecordOf(w, job, ans);
    var w1 := EgressPass(w, job, ans).w;
    var p := Diffed(w, job, ans);
    var s :| p.w.services.Keys == {s} && forall x :: x in p.tracked ==> p.tracked[x].serviceId == s;
    assert a in p.tracked && |p.tracked| == |p.tracked.Keys| == |{a, b}|;
    StuckOn(w1, job, s, a);
    RecordIsForever(w1, job, script);
    NotApart(job, a, b);
    OneServiceUnique(w1.services, s);
    if Converged(w1, job) {
      SharedNameNeverConverges(w1, job);
      assert false;
    }
  }

  lemma NotApart(job: Job, a: string, b: string)
    requires a != b && a in Wanted(job) && b in Wanted(job) && WantName(job, Wanted(job)[a]) == WantName(job, Wanted(job)[b])
    ensures !NamesApart(job)
  {
    hide WantName;
    hide Wanted;
  }

  lemma OneServiceUnique(v: Services, s: string)
    requires v.Keys == {s}
    ensures UniqueNames(v)
  {
  }

  lemma SameHostSameName(job: Job, t: EgressTarget, u: EgressTarget)
    requires ServiceName(job.cfg, job.eg.hostname, t) == ServiceName(job.cfg, job.eg.hostname, u)
    ensures WantName(job, t) == WantName(job, u)
  {
  }

  lemma EmptyTracked(w: World, app: string, pick: Picker)
    requires w.services == map[] && w.store == map[]
    ensures Tracked(w, app, pick) == map[]
  {
    NoGateways(w, app);
  }

  lemma PutLoopTwo(p: Pass, job: Job, desired: map<string, EgressTarget>, a: string, b: string, ans: Answers)
    requires a in desired && b in desired && a != b && ans.pick({a, b}) == a
    requires Addr(desired[a]) == a && Addr(desired[b]) == b && a !in p.tracked && b !in p.tracked
    requires b !in CreateInto(p, job, desired[a], ans.put(a).create, ans.pick).tracked
    ensures PutLoop(p, job, desired, {a, b}, ans) ==
            CreateInto(CreateInto(p, job, desired[a], ans.put(a).create, ans.pick), job, desired[b], ans.put(b).create, ans.pick)
  {
    hide CreateInto;
    hide WantHash;
    hide Addr;
    var p1 := CreateInto(p, job, desired[a], ans.put(a).create, ans.pick);
    assert {a, b} - {a} == {b};
    PutLoopOne(p1, job, desired, b, ans);
  }

  lemma StuckOn(w: World, job: Job, s: string, a: string)
    requires w.services.Keys == {s}
    requires a in StoreIndex(EntryOf(w, job.app).gateways) && StoreIndex(EntryOf(w, job.app).gateways)[a].serviceId == s
    ensures AllKnown(w, job.app)
  {
    hide StoreIndex;
    var index := StoreIndex(EntryOf(w, job.app).gateways);
    assert index[a].serviceId in KnownServices(index);
  }

  // ---------- one gateway under two records ----------

  lemma RemoveLoopOne(p: Pass, keep: set<string>, a: string, ans: Answers)
    requires a in p.tracked
    ensures RemoveLoop(p, keep, {a}, ans) == if a in keep then p else RemoveOne(p, a, ans.remove(a))
  {
    hide RemoveOne;
    assert ans.pick({a}) == a;
    assert {a} - {a} == {};
    var p' := if a in keep then p else RemoveOne(p, a, ans.remove(a));
    assert RemoveLoop(p', keep, {}, ans) == p';
  }

  /** Of two tracked addresses, `b` is kept and `a` removed, in either order. */
  lemma RemoveLoopTwo(p: Pass, a: string, b: string, ans: Answers)
    requires a in p.tracked && b in p.tracked && a != b
    ensures RemoveLoop(p, {b}, {a, b}, ans) == RemoveOne(p, a, ans.remove(a))
  {
    hide RemoveOne;
    Keys.RemoveOneTracked(p, a, ans.remove(a));
    var p1 := RemoveOne(p, a, ans.remove(a));
    if ans.pick({a, b}) == a {
      assert {a, b} - {a} == {b};
      RemoveLoopOne(p1, {b}, b, ans);
    } else {
      assert {a, b} - {b} == {a};
      RemoveLoopOne(p, {b}, a, ans);
    }
  }

  lemma SameGateways(w: World, w': World, app: string)
    requires w'.services == w.services
    ensures Gateways(w', app) == Gateways(w, app)
  {
  }

  lemma PutCreates(p: Pass, job: Job, t: EgressTarget, a: PutAnswers, pick: Picker)
    requires Addr(t) !in p.tracked
    ensures PutOne(p, job, t, a, pick) == CreateInto(p, job, t, a.create, pick)
  {
    hide CreateInto;
    hide Addr;
  }

  lemma MarksAfter(w: World, w': World, job: Job, t: EgressTarget, sid: string)
    requires Good(t) && Placed(w, w', job, t, sid) && Gateways(w, job.app) <= {sid}
    ensures Gateways(w', job.app) == {sid}
  {
    hide MarkedFor;
    hide Placed;
    hide WantName;
    hide WantHash;
    hide LiveHash;
    PlacedFrame(w, w', job, t, sid);
    forall s | s != sid ensures s !in Gateways(w', job.app) {
      assert s !in Gateways(w, job.app) && !Runs(w.services, job.app, s);
    }
  }

  /** Two records of one running gateway, one of them no longer wanted. */
  ghost predicate DoubleBooked(w: World, job: Job, stale: string, u: EgressTarget, sid: string) {
    var index := StoreIndex(EntryOf(w, job.app).gateways);
    && job.eg.targets == [u] && Good(u) && job.image != "" && stale != Addr(u)
    && EntryOf(w, job.app).gatewayHash == WholeHash(job.eg, job.image)
    && index.Keys == {stale, Addr(u)} && index[stale].serviceId == index[Addr(u)].serviceId == sid
    && index[Addr(u)].target == Addr(u) && index[Addr(u)].hash == WantHash(job, u)
    && Gateways(w, job.app) == {sid}
  }

  /** The pass that should heal it deletes the gateway it has just adopted, keeps the other
      record as up to date, reports success, and nothing ever recreates the gateway. */
  lemma HealingDeletes(w: World, job: Job, stale: string, u: EgressTarget, sid: string, ans: Answers, script: seq<Answers>)
    requires DoubleBooked(w, job, stale, u, sid) && ans.list && SmoothRemove(ans.remove(stale))
    ensures var r := EgressPass(w, job, ans);
            && r.ok && r.w.services == w.services - {sid} && Gateways(r.w, job.app) == {}
            && Passes(r.w, job, script) == r.w
  {
    hide Tracked;
    hide RemoveLoop;
    hide RemoveOne;
    hide PutLoop;
    hide PutOne;
    hide SlowPath;
    hide EgressPass;
    hide Passes;
    hide StoreIndex;
    hide WantHash;
    hide WholeHash;
    hide Good;
    hide Wanted;
    hide FastGate;
    hide Addr;
    hide Gateways;
    hide KnownServices;
    hide AllKnown;
    var index := StoreIndex(EntryOf(w, job.app).gateways);
    OneTarget(job, u);
    OneKnown(w, job.app, stale, sid);
    KnownTracked(w, job.app, ans.pick);
    assert index.Keys != Wanted(job).Keys by { assert stale in index.Keys; }
    GateIff(job, EntryOf(w, job.app), Tracked(w, job.app, ans.pick), Wanted(job));
    EgressPassCases(w, job, ans);
    var p0 := Pass(w, index, true);
    assert Wanted(job).Keys == {Addr(u)};
    RemoveLoopTwo(p0, stale, Addr(u), ans);
    SmoothRemoval(p0, stale, ans.remove(stale));
    var p1 := Pruned(w, job, ans);
    PutLoopOne(p1, job, Wanted(job), Addr(u), ans);
    PutOneIdle(p1, job, u, ans.put(Addr(u)), ans.pick);
    RecordOf(w, job, ans);
    var w' := EgressPass(w, job, ans).w;
    SlowPathIs(w, job, ans);
    EgressOk(w, job, ans);
    NoneLeft(w, w', job.app, sid);
    RecordIsForever(w', job, script);
  }

  lemma OneKnown(w: World, app: string, a: string, sid: string)
    requires Gateways(w, app) <= {sid} && a in StoreIndex(EntryOf(w, app).gateways) && StoreIndex(EntryOf(w, app).gateways)[a].serviceId == sid
    ensures AllKnown(w, app)
  {
    hide StoreIndex;
    hide Gateways;
    KnownService(StoreIndex(EntryOf(w, app).gateways), a);
  }

  lemma NoneLeft(w: World, w': World, app: string, sid: string)
    requires Gateways(w, app) == {sid} && w'.services == w.services - {sid}
    ensures Gateways(w', app) == {} && AllKnown(w', app)
  {
    hide MarkedFor;
    hide StoreIndex;
    forall s | s in Gateways(w', app) ensures s in Gateways(w, app) {}
  }

  lemma EgressOk(w: World, job: Job, ans: Answers)
    requires job.image != "" && ans.list && !FastGate(job, EntryOf(w, job.app), Tracked(w, job.app, ans.pick), Wanted(job))
    ensures EgressPass(w, job, ans) == SlowPath(w, job, Tracked(w, job.app, ans.pick), ans)
  {
    hide Tracked;
    hide FastGate;
    hide SlowPath;
    hide Desired;
  }

  lemma SmoothRemoval(p: Pass, a: string, answers: RemoveAnswers)
    requires a in p.tracked && SmoothRemove(answers)
    ensures var p' := RemoveOne(p, a, answers);
            && p'.tracked == p.tracked - {a} && p'.ok == p.ok
            && p'.w.services == p.w.services - {p.tracked[a].serviceId}
  {
  }

  // ---------- an app recreated under a new service ID ----------

  /** `was` is the old service of the app, gone from the cluster but for its gateway and its
      entry; the new one asks for the same name. */
  ghost predicate Recreated(w: World, job: Job, was: string, ref: GatewayRef, u: EgressTarget) {
    && job.app != was && job.eg.targets == [u] && Good(u) && job.image != "" && Sound(w, job.cfg, job.app)
    && EntryOf(w, was).gateways == [ref] && ref.serviceId in w.services
    && w.services[ref.serviceId].spec.name == WantName(job, u)
    && job.app !in w.store && Gateways(w, job.app) == {}
  }

  /** The new service takes the gateway over by its name. */
  lemma RecreatedAdopts(w: World, job: Job, was: string, ref: GatewayRef, u: EgressTarget, ans: Answers)
    requires Recreated(w, job, was, ref, u) && ans.list && Adopts(w, ans.put(Addr(u)).create)
    ensures var w1 := EgressPass(w, job, ans).w;
            var index := StoreIndex(EntryOf(w1, job.app).gateways);
            && EntryOf(w1, was) == EntryOf(w, was) && Gateways(w1, job.app) == {ref.serviceId}
            && EntryOf(w1, job.app).gatewayHash == WholeHash(job.eg, job.image)
            && index.Keys == {Addr(u)} && index[Addr(u)].serviceId == ref.serviceId
  {
    hide Tracked;
    hide RemoveLoop;
    hide CreateInto;
    hide PutLoop;
    hide SlowPath;
    hide EgressPass;
    hide StoreIndex;
    hide Sound;
    hide Adopts;
    hide WantName;
    hide WantHash;
    hide WholeHash;
    hide Good;
    hide Wanted;
    hide FastGate;
    hide Addr;
    hide Placed;
    hide Gateways;
    OneTarget(job, u);
    NoRecord(w, job.app, ans.pick);
    assert Addr(u) in Wanted(job).Keys;
    GateIff(job, EntryOf(w, job.app), Tracked(w, job.app, ans.pick), Wanted(job));
    EgressPassCases(w, job, ans);
    var p0 := Pass(w, map[], true);
    assert Pruned(w, job, ans) == p0 by { RemoveLoopIdle(p0, Wanted(job).Keys, {}, ans); }
    assert Wanted(job).Keys == {Addr(u)};
    PutLoopOne(p0, job, Wanted(job), Addr(u), ans);
    PutCreates(p0, job, u, ans.put(Addr(u)), ans.pick);
    CreateTakesOver(p0, job, u, ans.put(Addr(u)).create, ans.pick, ref.serviceId);
    var p := Diffed(w, job, ans);
    RecordOf(w, job, ans);
    MarksAfter(w, p.w, job, u, ref.serviceId);
    SameGateways(p.w, EgressPass(w, job, ans).w, job.app);
    Proxies.OtherEntries(w, EgressPass(w, job, ans).w, job.app);
  }

  lemma NoRecord(w: World, app: string, pick: Picker)
    requires app !in w.store && Gateways(w, app) == {}
    ensures Tracked(w, app, pick) == map[]
  {
  }

  /** Then the old entry's teardown runs. Exactly if its deletion of the gateway goes through,
      the new service has lost it; either way its record is complete and it never notices. */
  lemma RecreatedLosesGateway(w: World, job: Job, was: string, ref: GatewayRef, u: EgressTarget, ans: Answers, s: Script, script: seq<Answers>)
    requires Recreated(w, job, was, ref, u) && ans.list && Adopts(w, ans.put(Addr(u)).create)
    ensures var w1 := EgressPass(w, job, ans).w;
            var w2 := Teardown(w1, was, s).w;
            && Gateways(w1, job.app) == {ref.serviceId}
            && Gateways(w2, job.app) == (if Deleted(s.egress.remove(ref.target)) then {} else {ref.serviceId})
            && Passes(w2, job, script) == w2
  {
    hide EgressPass;
    hide Passes;
    hide StoreIndex;
    hide WholeHash;
    hide Addr;
    hide Adopts;
    hide Teardown;
    hide Gateways;
    hide Wanted;
    hide AllKnown;
    RecreatedAdopts(w, job, was, ref, u, ans);
    RecreatedFacts(w, job, was, ref, u);
    hide Recreated;
    var w1 := EgressPass(w, job, ans).w;
    var w2 := Teardown(w1, was, s).w;
    TeardownTakesAway(w1, job.app, was, ref, s);
    OneKnown(w2, job.app, Addr(u), ref.serviceId);
    RecordIsForever(w2, job, script);
  }

  lemma RecreatedFacts(w: World, job: Job, was: string, ref: GatewayRef, u: EgressTarget)
    requires Recreated(w, job, was, ref, u)
    ensures job.app != was && EntryOf(w, was).gateways == [ref] && Wanted(job).Keys == {Addr(u)}
  {
    hide Sound;
    hide Addr;
    OneTarget(job, u);
    hide Wanted;
  }

  lemma TeardownTakesAway(w: World, app: string, was: string, ref: GatewayRef, s: Script)
    requires app != was && EntryOf(w, was).gateways == [ref] && Gateways(w, app) == {ref.serviceId}
    ensures var w' := Teardown(w, was, s).w;
            && Gateways(w', app) == (if Deleted(s.egress.remove(ref.target)) then {} else {ref.serviceId})
            && EntryOf(w', app) == EntryOf(w, app)
  {
    hide Teardown;
    hide MarkedFor;
    TeardownExact(w, was, s);
    var w' := Teardown(w, was, s).w;
    assert ref in [ref];
    assert DeletedIds([ref], s.egress.remove) == if Deleted(s.egress.remove(ref.target)) then {ref.serviceId} else {};
    assert forall g :: g in Gateways(w', app) <==> g in Gateways(w, app) && g !in DeletedIds([ref], s.egress.remove);
  }
}
