/** The wishes of an app, the names they need, what an honest record is, the fast-path gate,
    and what the create and update loop keeps. */
module Convergence {
  import opened Targets
  import opened Gateway
  import opened World
  import opened Egress
  import opened Mirror
  import opened Loops

  function Wanted(job: Job): map<string, EgressTarget> { Desired(job.eg.targets) }

  predicate GoodJob(job: Job) { AllGood(job.eg.targets) && job.image != "" }

  lemma WantedGood(job: Job)
    requires AllGood(job.eg.targets)
    ensures forall a :: a in Wanted(job) ==> Good(Wanted(job)[a]) && Addr(Wanted(job)[a]) == a
  {
  }

  // ---------- names ----------

  /** No two desired targets ask for one service name. */
  ghost predicate NamesApart(job: Job) {
    forall a, b :: a in Wanted(job) && b in Wanted(job) && a != b ==>
      WantName(job, Wanted(job)[a]) != WantName(job, Wanted(job)[b])
  }

  ghost predicate ClearAll(v: Services, job: Job) {
    forall a :: a in Wanted(job) ==> NameClear(v, job, Wanted(job)[a])
  }

  /** As ClearAll, but a wanted name may also be held by a gateway that is about to be
      removed (a host whose port changed). */
  ghost predicate NamesFree(v: Services, job: Job) {
    forall a, s :: a in Wanted(job) && s in v && v[s].spec.name == WantName(job, Wanted(job)[a]) ==>
      if Runs(v, job.app, s) then AddrOf(v, s) == a || AddrOf(v, s) !in Wanted(job)
      else forall g :: Runs(v, job.app, g) ==> AddrOf(v, g) != a
  }

  // ---------- honest records ----------

  /** If the recorded whole-set hash is the job's, the running gateways it covers and the
      lines recorded for its addresses are as the job wants them. */
  ghost predicate HonestFor(w: World, job: Job) {
    var m := Lines(w, job.app);
    EntryOf(w, job.app).gatewayHash == WholeHash(job.eg, job.image) ==>
      && (forall s :: Runs(w.services, job.app, s) && AddrOf(w.services, s) in Wanted(job) ==>
            LiveHash(w.services[s].spec) == WantHash(job, Wanted(job)[AddrOf(w.services, s)]))
      && (forall a :: a in m && a in Wanted(job) ==> m[a].hash == WantHash(job, Wanted(job)[a]))
  }

  ghost predicate Honest(w: World, cfg: Config, app: string) {
    forall job: Job :: job.cfg == cfg && job.app == app && AllGood(job.eg.targets) ==> HonestFor(w, job)
  }

  /** A recorded whole-set hash comes with a record of every running gateway. */
  ghost predicate Complete(w: World, app: string) {
    EntryOf(w, app).gatewayHash.SetHash? ==> Covers(w.services, app, Lines(w, app), {})
  }

  ghost predicate Coherent(w: World, cfg: Config, app: string) {
    Sound(w, cfg, app) && Recorded(w, app) && Honest(w, cfg, app) && Complete(w, app)
  }

  // ---------- the fast-path gate ----------

  lemma SubsetSameSize<T>(a: set<T>, b: set<T>)
    requires a <= b && |a| == |b|
    ensures a == b
  {
    assert |b - a| == |b| - |a|;
  }

  /** Hash, count and inclusion together say: same hash, same address set. */
  lemma GateIff(job: Job, prev: Entry, tracked: map<string, GatewayRef>, desired: map<string, EgressTarget>)
    ensures FastGate(job, prev, tracked, desired) <==>
            prev.gatewayHash == WholeHash(job.eg, job.image) && tracked.Keys == desired.Keys
  {
    assert |tracked| == |tracked.Keys| && |desired| == |desired.Keys|;
    if FastGate(job, prev, tracked, desired) {
      SubsetSameSize(desired.Keys, tracked.Keys);
    }
  }

  // ---------- the put loop ----------

  predicate Apart(todo: set<string>, ans: Answers) {
    forall a, b :: a in todo && b in todo && a != b ==>
      KeyIds(ans.put(a)) !! KeyIds(ans.put(b)) && NewIds(ans.put(a)) !! NewIds(ans.put(b))
  }

  predicate SmoothUpdates(w: World, todo: set<string>, ans: Answers) {
    Apart(todo, ans) && forall a :: a in todo ==> SmoothUpdate(w, ans.put(a).update)
  }

  predicate SmoothPuts(w: World, todo: set<string>, ans: Answers) {
    SmoothUpdates(w, todo, ans) && forall a :: a in todo ==> SmoothCreate(w, ans.put(a).create)
  }

  lemma PutOneUses(p: Pass, job: Job, t: EgressTarget, a: PutAnswers, pick: Picker)
    ensures var w' := PutOne(p, job, t, a, pick).w;
            w'.minted <= p.w.minted + KeyIds(a) && w'.ids <= p.w.ids + NewIds(a)
  {
    hide WantSpec;
    hide WantHash;
    hide CreateGateway;
    hide UpdateGateway;
    hide Addr;
    CreateUses(p.w, job, t, a, pick);
    if Addr(t) in p.tracked {
      UpdateUses(p.w, job, t, p.tracked[Addr(t)], a);
    }
  }

  lemma CreateUses(w: World, job: Job, t: EgressTarget, a: PutAnswers, pick: Picker)
    ensures var w' := CreateGateway(w, job, t, a.create, pick).0;
            w'.minted <= w.minted + KeyIds(a) && w'.ids <= w.ids + NewIds(a)
  {
    hide WantSpec;
    hide WantHash;
    hide Addr;
    hide CreateService;
    hide AdoptExisting;
    hide Mint;
    var (w1, key) := Mint(w, a.create.key);
    MintKeeps(w, a.create.key);
    if key.Some? {
      CreateServiceIs(w1, WantSpec(job, t, key.value.secret), a.create.id);
      AdoptUses(CreateService(w1, WantSpec(job, t, key.value.secret), a.create.id).0, job, t, key.value, a.create, pick);
    }
  }

  lemma AdoptUses(w: World, job: Job, t: EgressTarget, key: Key, a: CreateAnswers, pick: Picker)
    ensures var w' := AdoptExisting(w, job, t, key, a, pick).0; w'.minted == w.minted && w'.ids == w.ids
  {
    hide WantSpec;
    hide WantHash;
    hide Addr;
    hide UpdateService;
    var spec := WantSpec(job, t, key.secret);
    var holders := Named(w, spec.name);
    if holders != {} {
      UpdateServiceIs(w, pick(holders), w.services[pick(holders)].version, spec, a.update);
    }
  }

  lemma UpdateUses(w: World, job: Job, t: EgressTarget, ref: GatewayRef, a: PutAnswers)
    ensures var (w', r) := UpdateGateway(w, job, t, ref, a.update);
            && w'.minted <= w.minted + KeyIds(a) && w'.ids == w.ids
            && (r.Vanished? ==> w' == w)
  {
    hide WantSpec;
    hide WantHash;
    hide Addr;
    hide Named;
  }

  lemma SmoothLater(w: World, w': World, todo: set<string>, addr: string, ans: Answers)
    requires addr in todo
    requires w'.minted <= w.minted + KeyIds(ans.put(addr)) && w'.ids <= w.ids + NewIds(ans.put(addr))
    ensures SmoothUpdates(w, todo, ans) ==> SmoothUpdates(w', todo - {addr}, ans)
    ensures SmoothPuts(w, todo, ans) ==> SmoothPuts(w', todo - {addr}, ans)
  {
    forall a | SmoothUpdates(w, todo, ans) && a in todo - {addr} ensures SmoothUpdate(w', ans.put(a).update) {
      assert ans.put(a).update.key.value.id in KeyIds(ans.put(a));
    }
    forall a | SmoothPuts(w, todo, ans) && a in todo - {addr} ensures SmoothCreate(w', ans.put(a).create) {
      assert ans.put(a).create.key.value.id in KeyIds(ans.put(a));
      assert ans.put(a).create.id.value in NewIds(ans.put(a));
    }
  }

  // ---------- records that share or lose a service ----------

  /** No outdated line of a desired address shares its running gateway with another line. */
  ghost predicate Unshared(v: Services, job: Job, tracked: map<string, GatewayRef>) {
    forall a, b :: a in tracked && b in tracked && a != b && a in Wanted(job)
                   && tracked[a].hash != WantHash(job, Wanted(job)[a]) && Describes(v, job.app, a, tracked[a]) ==>
      tracked[b].serviceId != tracked[a].serviceId
  }

  /** An outdated line of a desired address names its own gateway or a service that is gone. */
  ghost predicate Usable(v: Services, job: Job, tracked: map<string, GatewayRef>) {
    && Unshared(v, job, tracked)
    && forall a :: a in tracked && a in Wanted(job) && tracked[a].hash != WantHash(job, Wanted(job)[a]) ==>
         Describes(v, job.app, a, tracked[a]) || tracked[a].serviceId !in v
  }

  /** Where no lapsed line's service was taken over, every line can be used, for every job. */
  lemma UntakenIsUsable(v: Services, job: Job, tracked: map<string, GatewayRef>)
    requires Untaken(v, job.app, tracked)
    ensures Usable(v, job, tracked)
  {
    hide LiveHash;
    hide TargetAddr;
    hide MarkedFor;
    hide WantHash;
    hide Wanted;
  }

  lemma UsableIsUnshared(v: Services, job: Job, tracked: map<string, GatewayRef>)
    requires Usable(v, job, tracked)
    ensures Unshared(v, job, tracked)
  {
    hide Unshared;
  }

  lemma UnsharedOne(p: Pass, job: Job, a: string)
    requires a in Wanted(job) && Addr(Wanted(job)[a]) == a && Unshared(p.w.services, job, p.tracked)
    ensures UnsharedAt(p, job, Wanted(job)[a])
  {
    hide Describes;
    hide WantHash;
    hide Wanted;
    hide Addr;
  }

  lemma UnsharedStays(p: Pass, p': Pass, job: Job, a: string)
    requires AllGood(job.eg.targets) && a in Wanted(job) && Addr(Wanted(job)[a]) == a
    requires Unshared(p.w.services, job, p.tracked) && PutResult(p, p', job, Wanted(job)[a])
    ensures Unshared(p'.w.services, job, p'.tracked)
  {
    hide LiveHash;
    hide TargetAddr;
    hide MarkedFor;
    hide WantHash;
    hide Wanted;
    hide Addr;
    hide Good;
    hide AllGood;
    hide Placed;
    hide WantName;
    hide Built;
    WantedGood(job);
    OnlyAddrMoves(p.tracked, p'.tracked, a);
    var t := Wanted(job)[a];
    if !(p'.w.services == p.w.services && Submap(p'.tracked, p.tracked)) {
      PlacedFrame(p.w, p'.w, job, t, p'.tracked[a].serviceId);
    }
    forall x, b | x in p'.tracked && b in p'.tracked && x != b && x in Wanted(job)
                  && p'.tracked[x].hash != WantHash(job, Wanted(job)[x]) && Describes(p'.w.services, job.app, x, p'.tracked[x])
      ensures p'.tracked[b].serviceId != p'.tracked[x].serviceId {
      assert x != a && p'.tracked[x] == p.tracked[x];
      assert Describes(p.w.services, job.app, x, p.tracked[x]);
    }
  }

  /** The addresses whose in-place update fails on a running service. */
  function Stranded(p: Pass, job: Job, todo: set<string>, ans: Answers): set<string>
    requires todo <= Wanted(job).Keys
    decreases todo
  {
    if todo == {} then {}
    else
      var a := ans.pick(todo);
      Strands(p, job, Wanted(job)[a], ans.put(a)) +
      Stranded(PutOne(p, job, Wanted(job)[a], ans.put(a), ans.pick), job, todo - {a}, ans)
  }

  // ---------- the put loop, whatever the answers and the names ----------

  ghost predicate PutAll(p: Pass, p': Pass, job: Job, todo: set<string>) {
    && p'.tracked - todo == p.tracked - todo
    && (forall a :: a in todo && a in p'.tracked ==> a in Wanted(job) && p'.tracked[a].hash == WantHash(job, Wanted(job)[a]))
    && p'.w.store == p.w.store && p.w.ids <= p'.w.ids
  }

  lemma StrandsIn(p: Pass, job: Job, t: EgressTarget, a: PutAnswers)
    ensures Strands(p, job, t, a) <= {Addr(t)}
  {
    hide Attempted;
    hide UpdateGateway;
    hide Addr;
  }

  lemma {:induction false} PutLoopKeeps(p: Pass, job: Job, todo: set<string>, ans: Answers, gone: set<string>)
    requires AllGood(job.eg.targets) && todo <= Wanted(job).Keys && Unshared(p.w.services, job, p.tracked)
    requires Reconciling(p, job.cfg, job.app, gone) && todo !! gone
    ensures var p' := PutLoop(p, job, Wanted(job), todo, ans);
            PutAll(p, p', job, todo) && Reconciling(p', job.cfg, job.app, gone + Stranded(p, job, todo, ans))
    decreases todo
  {
    hide Reconciling;
    hide Unshared;
    hide PutOne;
    hide WantHash;
    hide Wanted;
    hide Good;
    hide AllGood;
    hide Addr;
    hide Placed;
    hide Strands;
    hide UnsharedAt;
    if todo == {} {
      assert gone + {} == gone;
    } else {
      var addr := ans.pick(todo);
      var t := Wanted(job)[addr];
      WantedGood(job);
      var p1 := PutOne(p, job, t, ans.put(addr), ans.pick);
      UnsharedOne(p, job, addr);
      PutOneKeeps(p, job, t, ans.put(addr), ans.pick, gone);
      UnsharedStays(p, p1, job, addr);
      StrandsIn(p, job, t, ans.put(addr));
      var gone1 := gone + Strands(p, job, t, ans.put(addr));
      PutLoopKeeps(p1, job, todo - {addr}, ans, gone1);
      var p' := PutLoop(p1, job, Wanted(job), todo - {addr}, ans);
      assert gone1 + Stranded(p1, job, todo - {addr}, ans) == gone + Stranded(p, job, todo, ans);
      PutTwice(p.tracked, p1.tracked, p'.tracked, addr, todo);
    }
  }

  // ---------- the put loop where every wanted name can be had ----------

  /** A step that places nothing but the wanted gateways, each on a service that ran for its
      address or was none of the app's. */
  ghost predicate Calm(p: Pass, p': Pass, job: Job, todo: set<string>) {
    && (forall b :: b in p.tracked && b !in todo ==>
          (Describes(p'.w.services, job.app, b, p.tracked[b]) <==> Describes(p.w.services, job.app, b, p.tracked[b])))
    && (forall s :: Runs(p.w.services, job.app, s) && !(AddrOf(p.w.services, s) in todo && AddrOf(p.w.services, s) in p'.tracked) ==>
          s in p'.w.services && p'.w.services[s] == p.w.services[s])
    && (forall a :: a in todo && a in Wanted(job) ==>
          (a in p'.tracked && !Describes(p'.w.services, job.app, a, p'.tracked[a]) <==>
           a in p.tracked && !Describes(p.w.services, job.app, a, p.tracked[a]) && p.tracked[a].hash == WantHash(job, Wanted(job)[a])))
    && (Untaken(p.w.services, job.app, p.tracked) ==> Untaken(p'.w.services, job.app, p'.tracked))
  }

  /** Whatever service the step writes to did not run for another address of the app. */
  ghost predicate OwnPlace(p: Pass, p': Pass, job: Job, t: EgressTarget) {
    || (p'.w.services == p.w.services && Submap(p'.tracked, p.tracked))
    || (&& Addr(t) in p'.tracked && Placed(p.w, p'.w, job, t, p'.tracked[Addr(t)].serviceId)
        && (Runs(p.w.services, job.app, p'.tracked[Addr(t)].serviceId) ==>
              AddrOf(p.w.services, p'.tracked[Addr(t)].serviceId) == Addr(t)))
  }

  ghost predicate UsableAt(p: Pass, job: Job, t: EgressTarget) {
    Attempted(p, job, t) ==>
      Describes(p.w.services, job.app, Addr(t), p.tracked[Addr(t)]) || p.tracked[Addr(t)].serviceId !in p.w.services
  }

  lemma CreatesInPlace(p: Pass, job: Job, t: EgressTarget, a: CreateAnswers, pick: Picker, gone: set<string>)
    requires Reconciling(p, job.cfg, job.app, gone) && Good(t) && Addr(t) !in p.tracked
    requires NothingAt(p.w.services, job.app, Addr(t)) && NameClear(p.w.services, job, t)
    ensures OwnPlace(p, CreateInto(p, job, t, a, pick), job, t)
  {
    hide AddrOf;
    hide MarkedFor;
    hide WantHash;
    hide WantName;
    hide CreateInto;
    hide Placed;
    hide Reconciling;
    hide Addr;
    hide Good;
    PutByCreate(p, job, t, a, pick, gone);
  }

  lemma NameIsOwn(p: Pass, job: Job, t: EgressTarget, gone: set<string>)
    requires Reconciling(p, job.cfg, job.app, gone) && NameClear(p.w.services, job, t)
    requires Addr(t) in p.tracked && Describes(p.w.services, job.app, Addr(t), p.tracked[Addr(t)])
    ensures Named(p.w, WantName(job, t)) <= {p.tracked[Addr(t)].serviceId}
  {
    hide TargetAddr;
    hide MarkedFor;
    hide LiveHash;
    hide WantName;
    hide Reconciling;
    hide Addr;
    OnlyAt(p, job.cfg, job.app, gone, Addr(t));
    forall s | s in Named(p.w, WantName(job, t)) ensures s == p.tracked[Addr(t)].serviceId {
      assert p.w.services[s].spec.name == WantName(job, t);
    }
  }

  lemma PutsInPlace(p: Pass, job: Job, t: EgressTarget, a: PutAnswers, pick: Picker, gone: set<string>)
    requires Reconciling(p, job.cfg, job.app, gone) && Good(t) && NameClear(p.w.services, job, t) && Addr(t) !in gone
    requires UnsharedAt(p, job, t) && UsableAt(p, job, t)
    ensures var p' := PutOne(p, job, t, a, pick);
            && OwnPlace(p, p', job, t)
            && (SmoothUpdate(p.w, a.update) ==> Strands(p, job, t, a) == {})
            && (SmoothUpdate(p.w, a.update) && SmoothCreate(p.w, a.create) ==> Addr(t) in p'.tracked && p'.ok == p.ok)
  {
    hide WantHash;
    hide WantName;
    hide CreateInto;
    hide UpdateGateway;
    hide Placed;
    hide Reconciling;
    hide Addr;
    hide Good;
    hide LiveHash;
    hide TargetAddr;
    hide MarkedFor;
    hide SmoothCreate;
    hide SmoothUpdate;
    hide NameClear;
    hide Named;
    var addr := Addr(t);
    if addr !in p.tracked {
      UntrackedIsVacant(p, job.cfg, job.app, gone, addr);
      PutByCreate(p, job, t, a.create, pick, gone);
      CreatesInPlace(p, job, t, a.create, pick, gone);
    } else if p.tracked[addr].hash != WantHash(job, t) {
      PutByUpdate(p, job, t, a.update, gone);
      UpdateNeverFails(p.w, job, t, p.tracked[addr], a.update);
      if p.tracked[addr].serviceId in p.w.services {
        NameIsOwn(p, job, t, gone);
      }
      var (w', r) := UpdateGateway(p.w, job, t, p.tracked[addr], a.update);
      if r.Vanished? {
        var p1 := Pass(w', p.tracked - {addr}, p.ok);
        OnlyAt(p, job.cfg, job.app, gone, addr);
        VacatedReconciling(p, job.cfg, job.app, gone, addr);
        PutByCreate(p1, job, t, a.create, pick, gone);
        CreatesInPlace(p1, job, t, a.create, pick, gone);
      }
    }
  }

  lemma VacatedReconciling(p: Pass, cfg: Config, app: string, gone: set<string>, a: string)
    requires Reconciling(p, cfg, app, gone) && NothingAt(p.w.services, app, a)
    ensures Reconciling(Pass(p.w, p.tracked - {a}, p.ok), cfg, app, gone)
  {
    hide Reconciling;
    hide AddrOf;
    hide MarkedFor;
    SameReconciling(p, Pass(p.w, p.tracked - {a}, p.ok), cfg, app, gone, gone, a);
  }

  lemma PlacedLeavesOthers(p: Pass, p': Pass, job: Job, t: EgressTarget, sid: string, b: string, gone: set<string>)
    requires Reconciling(p, job.cfg, job.app, gone) && Good(t) && Placed(p.w, p'.w, job, t, sid)
    requires Runs(p.w.services, job.app, sid) ==> AddrOf(p.w.services, sid) == Addr(t)
    requires b in p.tracked && b != Addr(t)
    ensures Describes(p'.w.services, job.app, b, p.tracked[b]) <==> Describes(p.w.services, job.app, b, p.tracked[b])
    ensures p.tracked[b].serviceId !in p.w.services ==> p.tracked[b].serviceId !in p'.w.services
  {
    hide LiveHash;
    hide TargetAddr;
    hide MarkedFor;
    hide WantHash;
    hide WantName;
    hide Good;
    hide Placed;
    hide Built;
    hide Reconciling;
    PlacedFrame(p.w, p'.w, job, t, sid);
    PlacedNew(p.w, p'.w, job, t, sid);
    TracksId(p, job.cfg, job.app, gone, b);
  }

  lemma PlacedIsCalm(p: Pass, p': Pass, job: Job, t: EgressTarget, a: string, gone: set<string>)
    requires Reconciling(p, job.cfg, job.app, gone) && Good(t) && Addr(t) == a && a in Wanted(job) && Wanted(job)[a] == t
    requires PutResult(p, p', job, t) && a in p'.tracked && Placed(p.w, p'.w, job, t, p'.tracked[a].serviceId) && p'.tracked[a].target == a
    requires Runs(p.w.services, job.app, p'.tracked[a].serviceId) ==> AddrOf(p.w.services, p'.tracked[a].serviceId) == a
    requires a in p.tracked && p.tracked[a].hash == WantHash(job, t) ==> p' == p
    ensures Calm(p, p', job, {a})
  {
    hide LiveHash;
    hide TargetAddr;
    hide MarkedFor;
    hide WantHash;
    hide WantName;
    hide Wanted;
    hide Addr;
    hide Good;
    hide Placed;
    hide Built;
    hide Reconciling;
    hide PutResult;
    OneMoves(p, p', job, a);
    OnlyAddrMoves(p.tracked, p'.tracked, a);
    var sid := p'.tracked[a].serviceId;
    PlacedFrame(p.w, p'.w, job, t, sid);
    assert p'.tracked[a].hash == WantHash(job, t) by { HashOfPut(p, p', job, t); }
    assert Describes(p'.w.services, job.app, a, p'.tracked[a]);
    forall b | b in p.tracked && b != a
      ensures Describes(p'.w.services, job.app, b, p.tracked[b]) <==> Describes(p.w.services, job.app, b, p.tracked[b])
      ensures p.tracked[b].serviceId !in p.w.services ==> p.tracked[b].serviceId !in p'.w.services {
      PlacedLeavesOthers(p, p', job, t, sid, b, gone);
    }
  }

  lemma HashOfPut(p: Pass, p': Pass, job: Job, t: EgressTarget)
    requires PutResult(p, p', job, t) && Addr(t) in p'.tracked
    ensures p'.tracked[Addr(t)].hash == WantHash(job, t)
  {
    hide Placed;
    hide Addr;
    hide WantHash;
  }

  lemma InPlaceIsCalm(p: Pass, p': Pass, job: Job, t: EgressTarget, a: string, gone: set<string>)
    requires Reconciling(p, job.cfg, job.app, gone) && Good(t) && Addr(t) == a && a in Wanted(job) && Wanted(job)[a] == t
    requires PutResult(p, p', job, t) && OwnPlace(p, p', job, t)
    requires a in p.tracked && p.tracked[a].hash == WantHash(job, t) ==> p' == p
    ensures Calm(p, p', job, {a})
  {
    hide Describes;
    hide AddrOf;
    hide MarkedFor;
    hide WantHash;
    hide Wanted;
    hide Addr;
    hide Good;
    hide Placed;
    hide Reconciling;
    OnlyAddrMoves(p.tracked, p'.tracked, a);
    if !(p'.w.services == p.w.services && Submap(p'.tracked, p.tracked)) {
      PlacedIsCalm(p, p', job, t, a, gone);
    }
  }

  lemma TracksId(p: Pass, cfg: Config, app: string, gone: set<string>, a: string)
    requires Reconciling(p, cfg, app, gone) && a in p.tracked
    ensures p.tracked[a].serviceId in p.w.ids
  {
    hide LiveHash;
    hide TargetAddr;
    hide MarkedFor;
    hide AllBuilt;
    hide UniqueNames;
    hide OnePerAddr;
    hide Linked;
    hide Covers;
    assert Tracks(p.w, app, a, p.tracked[a]);
  }

  lemma PlacedNew(w: World, w': World, job: Job, t: EgressTarget, sid: string)
    requires Placed(w, w', job, t, sid)
    ensures sid in w.services || sid !in w.ids
  {
    hide WantSpec;
    hide WantName;
  }

  lemma PutKeepsClear(p: Pass, p': Pass, job: Job, a: string)
    requires AllGood(job.eg.targets) && a in Wanted(job) && NamesApart(job) && ClearAll(p.w.services, job)
    requires PutResult(p, p', job, Wanted(job)[a])
    ensures ClearAll(p'.w.services, job)
  {
    hide WantName;
    hide Good;
    hide NameClear;
    hide Placed;
    hide Addr;
    hide AllGood;
    hide Wanted;
    WantedGood(job);
    if p'.w.services != p.w.services {
      var sid := p'.tracked[Addr(Wanted(job)[a])].serviceId;
      forall b | b in Wanted(job) ensures NameClear(p'.w.services, job, Wanted(job)[b]) {
        if a == b {
          PlacedOwnNameClear(p.w, p'.w, job, Wanted(job)[a], sid);
        } else {
          PlacedKeepsClear(p.w, p'.w, job, Wanted(job)[a], sid, Wanted(job)[b]);
        }
      }
    }
  }

  lemma UsableOne(p: Pass, job: Job, a: string)
    requires a in Wanted(job) && Addr(Wanted(job)[a]) == a && Usable(p.w.services, job, p.tracked)
    ensures UnsharedAt(p, job, Wanted(job)[a]) && UsableAt(p, job, Wanted(job)[a])
  {
    hide Describes;
    hide WantHash;
    hide Wanted;
    hide Addr;
  }

  lemma UsableStays(p: Pass, p': Pass, job: Job, a: string, gone: set<string>)
    requires AllGood(job.eg.targets) && a in Wanted(job) && Addr(Wanted(job)[a]) == a && Reconciling(p, job.cfg, job.app, gone)
    requires Usable(p.w.services, job, p.tracked) && PutResult(p, p', job, Wanted(job)[a]) && Calm(p, p', job, {a})
    ensures Usable(p'.w.services, job, p'.tracked)
  {
    hide LiveHash;
    hide TargetAddr;
    hide MarkedFor;
    hide WantHash;
    hide Wanted;
    hide Addr;
    hide AllGood;
    hide Placed;
    hide WantName;
    hide Built;
    hide Reconciling;
    hide Unshared;
    hide Describes;
    UsableIsUnshared(p.w.services, job, p.tracked);
    UnsharedStays(p, p', job, a);
    OnlyAddrMoves(p.tracked, p'.tracked, a);
    forall b | b in p'.tracked && b in Wanted(job) && p'.tracked[b].hash != WantHash(job, Wanted(job)[b])
      ensures Describes(p'.w.services, job.app, b, p'.tracked[b]) || p'.tracked[b].serviceId !in p'.w.services {
      assert b != a;
      TracksId(p, job.cfg, job.app, gone, b);
      if p.tracked[b].serviceId !in p.w.services {
        MissingStays(p, p', job, Wanted(job)[a], p.tracked[b].serviceId);
      }
    }
  }

  lemma MissingStays(p: Pass, p': Pass, job: Job, t: EgressTarget, sid: string)
    requires PutResult(p, p', job, t) && sid in p.w.ids && sid !in p.w.services
    ensures sid !in p'.w.services
  {
    hide WantSpec;
    hide WantName;
    hide WantHash;
    hide Addr;
  }

  lemma CalmTwice(p: Pass, p1: Pass, p': Pass, job: Job, a: string, todo: set<string>)
    requires a in todo && Calm(p, p1, job, {a}) && Calm(p1, p', job, todo - {a})
    requires p1.tracked - {a} == p.tracked - {a} && p'.tracked - (todo - {a}) == p1.tracked - (todo - {a})
    ensures Calm(p, p', job, todo)
  {
    hide LiveHash;
    hide TargetAddr;
    hide MarkedFor;
    hide WantHash;
    hide Wanted;
    OnlyAddrMoves(p.tracked, p1.tracked, a);
    PutTwice(p.tracked, p1.tracked, p'.tracked, a, todo);
    forall s | Runs(p.w.services, job.app, s) && !(AddrOf(p.w.services, s) in todo && AddrOf(p.w.services, s) in p'.tracked)
      ensures s in p'.w.services && p'.w.services[s] == p.w.services[s] {
      assert s in p1.w.services && p1.w.services[s] == p.w.services[s];
    }
    forall b | b in todo && b in Wanted(job)
      ensures b in p'.tracked && !Describes(p'.w.services, job.app, b, p'.tracked[b]) <==>
              b in p.tracked && !Describes(p.w.services, job.app, b, p.tracked[b]) && p.tracked[b].hash == WantHash(job, Wanted(job)[b]) {
      if b == a {
        assert b in p'.tracked <==> b in p1.tracked;
      } else {
        assert b in p1.tracked <==> b in p.tracked;
      }
    }
  }

  lemma CalmNone(p: Pass, job: Job)
    ensures Calm(p, p, job, {})
  {
    hide Describes;
  }

  lemma PutOneIdle(p: Pass, job: Job, t: EgressTarget, a: PutAnswers, pick: Picker)
    requires Addr(t) in p.tracked && p.tracked[Addr(t)].hash == WantHash(job, t)
    ensures PutOne(p, job, t, a, pick) == p
  {
    hide Addr;
    hide WantHash;
  }

  lemma PutOneCalm(p: Pass, job: Job, addr: string, ans: Answers, gone: set<string>)
    requires AllGood(job.eg.targets) && NamesApart(job) && ClearAll(p.w.services, job) && addr in Wanted(job)
    requires Reconciling(p, job.cfg, job.app, gone) && addr !in gone && Usable(p.w.services, job, p.tracked)
    ensures var a := ans.put(addr);
            var p' := PutOne(p, job, Wanted(job)[addr], a, ans.pick);
            && Calm(p, p', job, {addr}) && ClearAll(p'.w.services, job) && Usable(p'.w.services, job, p'.tracked)
            && (SmoothUpdate(p.w, a.update) ==> Strands(p, job, Wanted(job)[addr], a) == {})
            && (SmoothUpdate(p.w, a.update) && SmoothCreate(p.w, a.create) ==> addr in p'.tracked && p'.ok == p.ok)
  {
    hide Reconciling;
    hide ClearAll;
    hide NamesApart;
    hide PutOne;
    hide Wanted;
    hide Good;
    hide AllGood;
    hide Addr;
    hide Usable;
    hide UsableAt;
    hide UnsharedAt;
    hide WantHash;
    hide NameClear;
    hide Calm;
    hide OwnPlace;
    hide PutResult;
    hide SmoothUpdate;
    hide SmoothCreate;
    hide Strands;
    WantedGood(job);
    var t := Wanted(job)[addr];
    var p' := PutOne(p, job, t, ans.put(addr), ans.pick);
    ClearOne(p.w.services, job, addr);
    UsableOne(p, job, addr);
    PutOneKeeps(p, job, t, ans.put(addr), ans.pick, gone);
    PutsInPlace(p, job, t, ans.put(addr), ans.pick, gone);
    if addr in p.tracked && p.tracked[addr].hash == WantHash(job, t) {
      PutOneIdle(p, job, t, ans.put(addr), ans.pick);
    }
    InPlaceIsCalm(p, p', job, t, addr, gone);
    PutKeepsClear(p, p', job, addr);
    UsableStays(p, p', job, addr, gone);
  }

  /** Where the names can be had, the loop touches no gateway but those it should, succeeds
      when its calls do, and leaves a line lapsed exactly where an up-to-date one was. */
  lemma {:induction false} PutLoopCalm(p: Pass, job: Job, todo: set<string>, ans: Answers, gone: set<string>)
    requires AllGood(job.eg.targets) && NamesApart(job) && ClearAll(p.w.services, job) && todo <= Wanted(job).Keys
    requires Reconciling(p, job.cfg, job.app, gone) && todo !! gone && Usable(p.w.services, job, p.tracked)
    ensures var p' := PutLoop(p, job, Wanted(job), todo, ans);
            && Calm(p, p', job, todo) && ClearAll(p'.w.services, job)
            && (SmoothUpdates(p.w, todo, ans) ==> Stranded(p, job, todo, ans) == {})
            && (SmoothPuts(p.w, todo, ans) ==> todo <= p'.tracked.Keys && p'.ok == p.ok)
    decreases todo
  {
    hide Reconciling;
    hide ClearAll;
    hide NamesApart;
    hide PutOne;
    hide Wanted;
    hide Good;
    hide AllGood;
    hide Addr;
    hide Usable;
    hide WantHash;
    hide Calm;
    hide PutResult;
    hide SmoothUpdate;
    hide SmoothCreate;
    hide Apart;
    hide Strands;
    hide UnsharedAt;
    hide Submap;
    if todo == {} {
      CalmNone(p, job);
    } else {
      var addr := ans.pick(todo);
      var t := Wanted(job)[addr];
      WantedGood(job);
      var p1 := PutOne(p, job, t, ans.put(addr), ans.pick);
      PutOneCalm(p, job, addr, ans, gone);
      PutOneUses(p, job, t, ans.put(addr), ans.pick);
      SmoothLater(p.w, p1.w, todo, addr, ans);
      UsableOne(p, job, addr);
      PutOneKeeps(p, job, t, ans.put(addr), ans.pick, gone);
      StrandsIn(p, job, t, ans.put(addr));
      PutLoopCalm(p1, job, todo - {addr}, ans, gone + Strands(p, job, t, ans.put(addr)));
      var p' := PutLoop(p1, job, Wanted(job), todo - {addr}, ans);
      OneMoves(p, p1, job, addr);
      UsableIsUnshared(p1.w.services, job, p1.tracked);
      PutLoopKeeps(p1, job, todo - {addr}, ans, gone + Strands(p, job, t, ans.put(addr)));
      PutTwice(p.tracked, p1.tracked, p'.tracked, addr, todo);
      CalmTwice(p, p1, p', job, addr, todo);
    }
  }

  lemma OneMoves(p: Pass, p': Pass, job: Job, a: string)
    requires a in Wanted(job) && Addr(Wanted(job)[a]) == a && PutResult(p, p', job, Wanted(job)[a])
    ensures p'.tracked - {a} == p.tracked - {a}
  {
    hide Placed;
    hide Addr;
  }

  lemma ClearOne(v: Services, job: Job, a: string)
    requires ClearAll(v, job) && a in Wanted(job)
    ensures NameClear(v, job, Wanted(job)[a])
  {
  }

  lemma OnlyAddrMoves(m: map<string, GatewayRef>, m': map<string, GatewayRef>, a: string)
    requires m - {a} == m' - {a}
    ensures m.Keys - m'.Keys <= {a} && m'.Keys - m.Keys <= {a}
    ensures forall b :: b != a ==> (b in m <==> b in m') && (b in m ==> m'[b] == m[b])
  {
    forall b | b != a ensures (b in m <==> b in m') && (b in m ==> m'[b] == m[b]) {
      assert b in m <==> b in m - {a};
      assert b in m' <==> b in m' - {a};
      assert b in m ==> (m - {a})[b] == m[b] && (m' - {a})[b] == m'[b];
    }
  }

  lemma PutTwice(m: map<string, GatewayRef>, m1: map<string, GatewayRef>, m': map<string, GatewayRef>, a: string, todo: set<string>)
    requires a in todo && m1 - {a} == m - {a} && m' - (todo - {a}) == m1 - (todo - {a})
    ensures m' - todo == m - todo
    ensures a in m' <==> a in m1
    ensures a in m1 ==> m'[a] == m1[a]
    ensures forall b :: b !in todo && b in m ==> b in m' && m'[b] == m[b]
  {
    OnlyAddrMoves(m, m1, a);
    assert (m' - (todo - {a})) - {a} == m' - todo;
    assert (m1 - (todo - {a})) - {a} == m1 - todo;
    assert a in m' <==> a in m' - (todo - {a});
    assert a in m1 <==> a in m1 - (todo - {a});
    assert a in m1 ==> (m1 - (todo - {a}))[a] == m1[a];
    assert a in m' ==> (m' - (todo - {a}))[a] == m'[a];
    forall b | b !in todo && b in m ensures b in m' && m'[b] == m[b] {
      assert b in m - todo && (m - todo)[b] == m[b];
      assert b in m' - todo && (m' - todo)[b] == m'[b];
    }
  }
}
