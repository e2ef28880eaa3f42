/** Exclusive ownership: as long as gateway names are separated between apps, no two store
    entries ever refer to one service, and a pass touches only gateways marked for its app. */
module Ownership {
  import opened Text
  import opened Targets
  import opened Gateway
  import opened Labels
  import opened World
  import opened Egress
  import opened Reconcile
  import opened Mirror
  import opened Loops
  import opened Convergence
  import opened EgressTheorems
  import opened Ledger
  import opened Conservation
  import opened Proxies
  import opened Teardowns
  import opened Independence

  function Mark(spec: ServiceSpec): Option<string> { Lookup(spec.labels, GATEWAY_FOR) }

  /** Whose gateways may bear a name; None for names no gateway bears. */
  type Owner = string -> Option<string>

  /** Every service's mark is what its name says. */
  ghost predicate Marked(v: Services, owner: Owner) {
    forall s :: s in v ==> Mark(v[s].spec) == owner(v[s].spec.name)
  }

  function RefIds(e: Entry): set<string> { set r | r in e.gateways :: r.serviceId }

  ghost predicate Owned(w: World, owner: Owner) {
    && w.services.Keys <= w.ids && Marked(w.services, owner)
    && (forall id :: id in w.store ==> id in w.ids && (id in w.services ==> Mark(w.services[id].spec).None?))
    && (forall id, s :: id in w.store && s in RefIds(w.store[id]) ==>
          s in w.ids && (s in w.services ==> Mark(w.services[s].spec) == Some(id)))
    && (forall id, id' :: id in w.store && id' in w.store && id != id' ==> RefIds(w.store[id]) !! RefIds(w.store[id']))
  }

  /** A step on behalf of `app`: services not marked for it stay as they were, marks never
      change, and new services are the app's and have IDs never seen before. */
  ghost predicate Handled(w: World, w': World, app: string, owner: Owner) {
    && w.ids <= w'.ids && w'.services.Keys <= w'.ids && Marked(w'.services, owner)
    && (UniqueNames(w.services) ==> UniqueNames(w'.services))
    && (forall s :: s in w'.services ==> s in w.services || (s !in w.ids && Mark(w'.services[s].spec) == Some(app)))
    && (forall s :: s in w'.services && s in w.services ==> Mark(w'.services[s].spec) == Mark(w.services[s].spec))
    && (forall s :: s in w.services && Mark(w.services[s].spec) != Some(app) ==> s in w'.services && w'.services[s] == w.services[s])
  }

  /** A service the app may refer to after a step from `w0` to `w`. */
  ghost predicate Mine(w0: World, w: World, app: string, refs: set<string>, s: string) {
    && (s in refs || s !in w0.ids || (s in w0.services && Mark(w0.services[s].spec) == Some(app)))
    && s in w.ids && (s in w.services ==> Mark(w.services[s].spec) == Some(app))
  }

  ghost predicate Working(w0: World, p: Pass, app: string, owner: Owner, refs: set<string>) {
    && w0.services.Keys <= w0.ids && Handled(w0, p.w, app, owner)
    && AllMine(w0, p.w, app, refs, p.tracked)
  }

  ghost predicate AllMine(w0: World, w: World, app: string, refs: set<string>, m: map<string, GatewayRef>) {
    forall a :: a in m ==> Mine(w0, w, app, refs, m[a].serviceId)
  }

  // ---------- single steps ----------

  lemma RemoveHandled(w: World, ref: GatewayRef, a: RemoveAnswers, app: string, owner: Owner)
    requires w.services.Keys <= w.ids && Marked(w.services, owner)
    requires ref.serviceId in w.services ==> Mark(w.services[ref.serviceId].spec) == Some(app)
    ensures var w' := RemoveGateway(w, ref, a).0;
            Handled(w, w', app, owner) && w'.ids == w.ids && Submap(w'.services, w.services)
  {
    hide Mark;
  }

  lemma HandledTwice(w: World, w1: World, w2: World, app: string, owner: Owner)
    requires w.services.Keys <= w.ids && Handled(w, w1, app, owner) && Handled(w1, w2, app, owner)
    ensures Handled(w, w2, app, owner)
  {
    hide Mark;
  }

  lemma MineShrinks(w0: World, w: World, w': World, app: string, refs: set<string>, s: string)
    requires Mine(w0, w, app, refs, s) && w'.ids == w.ids && Submap(w'.services, w.services)
    ensures Mine(w0, w', app, refs, s)
  {
    hide Mark;
  }

  lemma RemoveOneWorks(w0: World, p: Pass, addr: string, a: RemoveAnswers, app: string, owner: Owner, refs: set<string>)
    requires Working(w0, p, app, owner, refs) && addr in p.tracked
    ensures Working(w0, RemoveOne(p, addr, a), app, owner, refs)
  {
    hide Mine;
    hide Handled;
    hide RemoveGateway;
    hide Submap;
    var p' := RemoveOne(p, addr, a);
    MineMarked(w0, p.w, app, owner, refs, p.tracked[addr].serviceId);
    RemoveHandled(p.w, p.tracked[addr], a, app, owner);
    HandledTwice(w0, p.w, p'.w, app, owner);
    forall b | b in p'.tracked ensures Mine(w0, p'.w, app, refs, p'.tracked[b].serviceId) {
      MineShrinks(w0, p.w, p'.w, app, refs, p.tracked[b].serviceId);
    }
  }

  lemma MineMarked(w0: World, w: World, app: string, owner: Owner, refs: set<string>, s: string)
    requires Mine(w0, w, app, refs, s) && Handled(w0, w, app, owner)
    ensures s in w.services ==> Mark(w.services[s].spec) == Some(app)
    ensures w.services.Keys <= w.ids && Marked(w.services, owner)
  {
    hide Mark;
  }

  lemma {:induction false} RemoveLoopWorks(w0: World, p: Pass, keep: set<string>, todo: set<string>, ans: Answers, app: string, owner: Owner, refs: set<string>)
    requires Working(w0, p, app, owner, refs) && todo <= p.tracked.Keys
    ensures Working(w0, RemoveLoop(p, keep, todo, ans), app, owner, refs)
    decreases todo
  {
    hide RemoveOne;
    hide Handled;
    hide Mine;
    if todo != {} {
      var addr := ans.pick(todo);
      if addr in keep {
        RemoveLoopWorks(w0, p, keep, todo - {addr}, ans, app, owner, refs);
      } else {
        RemoveOneWorks(w0, p, addr, ans.remove(addr), app, owner, refs);
        Keys.RemoveOneTracked(p, addr, ans.remove(addr));
        RemoveLoopWorks(w0, RemoveOne(p, addr, ans.remove(addr)), keep, todo - {addr}, ans, app, owner, refs);
      }
    }
  }

  /** A gateway put in place for the app: on a new ID, or over a service the app owns. */
  ghost predicate PutThere(w: World, w': World, job: Job, t: EgressTarget, sid: string) {
    && sid in w'.services && w'.services == w.services[sid := w'.services[sid]]
    && Mark(w'.services[sid].spec) == Some(job.app) && w'.services[sid].spec.name == WantName(job, t)
    && w'.ids == w.ids + {sid} && Named(w, WantName(job, t)) <= {sid}
    && (sid in w.services || sid !in w.ids)
    && (sid in w.services ==> Mark(w.services[sid].spec) == Some(job.app))
  }

  lemma PutThereHandled(w: World, w': World, job: Job, t: EgressTarget, sid: string, owner: Owner)
    requires PutThere(w, w', job, t, sid) && w.services.Keys <= w.ids && Marked(w.services, owner)
    requires owner(WantName(job, t)) == Some(job.app)
    ensures Handled(w, w', job.app, owner)
  {
    hide Mark;
    hide WantName;
    forall s | s in w.services && s != sid ensures w.services[s].spec.name != WantName(job, t) {
      assert s !in Named(w, WantName(job, t));
    }
  }

  /** The new reference is the app's, and the others stay so. */
  lemma PutThereMine(w0: World, w: World, w': World, job: Job, t: EgressTarget, sid: string, owner: Owner, refs: set<string>)
    requires PutThere(w, w', job, t, sid) && Handled(w0, w, job.app, owner) && w0.services.Keys <= w0.ids
    ensures Mine(w0, w', job.app, refs, sid)
    ensures forall s :: Mine(w0, w, job.app, refs, s) ==> Mine(w0, w', job.app, refs, s)
  {
    hide Mark;
    hide WantName;
  }

  lemma WantSpecMarked(job: Job, t: EgressTarget, secret: string)
    ensures var spec := WantSpec(job, t, secret);
            Mark(spec) == Some(job.app) && spec.name == WantName(job, t)
  {
  }

  lemma AdoptPuts(w: World, job: Job, t: EgressTarget, key: Key, a: CreateAnswers, pick: Picker, owner: Owner)
    requires w.services.Keys <= w.ids && Marked(w.services, owner) && owner(WantName(job, t)) == Some(job.app)
    ensures var (w', r) := AdoptExisting(w, job, t, key, a, pick);
            if r.None? then w'.services == w.services && w'.ids == w.ids else PutThere(w, w', job, t, r.value.serviceId)
  {
    hide WantSpec;
    hide WantName;
    hide WantHash;
    hide Mark;
    hide Addr;
    WantSpecMarked(job, t, key.secret);
    var spec := WantSpec(job, t, key.secret);
    var holders := Named(w, spec.name);
    if a.lookup == LookupHit && holders != {} {
      var sid := pick(holders);
      assert sid in w.services && w.services[sid].spec.name == WantName(job, t);
      assert w.ids == w.ids + {sid};
    }
  }

  lemma CreateServicePuts(w: World, job: Job, t: EgressTarget, secret: string, answer: Option<string>)
    requires w.services.Keys <= w.ids
    ensures var (w', c) := CreateService(w, WantSpec(job, t, secret), answer);
            if c.Created? then PutThere(w, w', job, t, c.id) else w' == w
  {
    hide WantSpec;
    hide WantName;
    hide Mark;
    hide Named;
    WantSpecMarked(job, t, secret);
  }

  lemma CreatePuts(w: World, job: Job, t: EgressTarget, a: CreateAnswers, pick: Picker, owner: Owner)
    requires w.services.Keys <= w.ids && Marked(w.services, owner) && owner(WantName(job, t)) == Some(job.app)
    ensures var (w', r) := CreateGateway(w, job, t, a, pick);
            if r.None? then w'.services == w.services && w'.ids == w.ids else PutThere(w, w', job, t, r.value.serviceId)
  {
    hide WantSpec;
    hide WantName;
    hide WantHash;
    hide Mark;
    hide Addr;
    hide AdoptExisting;
    hide CreateService;
    hide PutThere;
    hide Mint;
    hide Expire;
    if a.wait {
      var (w1, key) := Mint(w, a.key);
      MintKeeps(w, a.key);
      ExpireKeeps(w1, if key.Some? then key.value.id else "");
      if key.Some? {
        CreateServicePuts(w1, job, t, key.value.secret, a.id);
        AdoptPuts(w1, job, t, key.value, a, pick, owner);
        PutThereAfterMint(w, w1, job, t);
      }
    }
  }

  lemma ExpireKeeps(w: World, key: string)
    ensures Expire(w, key).services == w.services && Expire(w, key).ids == w.ids
  {
  }

  lemma PutThereAfterMint(w: World, w1: World, job: Job, t: EgressTarget)
    requires w1.services == w.services && w1.ids == w.ids
    ensures forall w', sid :: PutThere(w1, w', job, t, sid) ==> PutThere(w, w', job, t, sid)
  {
  }

  lemma UpdatePuts(w: World, job: Job, t: EgressTarget, ref: GatewayRef, a: UpdateAnswers)
    requires w.services.Keys <= w.ids
    requires ref.serviceId in w.services ==> Mark(w.services[ref.serviceId].spec) == Some(job.app)
    ensures var (w', r) := UpdateGateway(w, job, t, ref, a);
            if !r.Updated? then w'.services == w.services && w'.ids == w.ids
            else r.ref.serviceId == ref.serviceId && PutThere(w, w', job, t, ref.serviceId)
  {
    hide WantSpec;
    hide WantName;
    hide WantHash;
    hide Mark;
    hide Addr;
    hide Named;
    if a.inspect && ref.serviceId in w.services && a.wait {
      var (w1, key) := Mint(w, a.key);
      if key.Some? {
        WantSpecMarked(job, t, key.value.secret);
        SameNamed(w, w1, WantName(job, t));
        assert w.ids == w.ids + {ref.serviceId};
      }
    }
  }

  lemma WorkingSame(w0: World, p: Pass, p': Pass, app: string, owner: Owner, refs: set<string>)
    requires Working(w0, p, app, owner, refs) && p'.w.services == p.w.services && p'.w.ids == p.w.ids && Submap(p'.tracked, p.tracked)
    ensures Working(w0, p', app, owner, refs)
  {
    hide Mark;
    forall a | a in p'.tracked ensures Mine(w0, p'.w, app, refs, p'.tracked[a].serviceId) {
      assert Mine(w0, p.w, app, refs, p.tracked[a].serviceId);
    }
  }

  lemma WorkingPut(w0: World, p: Pass, w': World, ok: bool, job: Job, t: EgressTarget, ref: GatewayRef, owner: Owner, refs: set<string>)
    requires Working(w0, p, job.app, owner, refs) && PutThere(p.w, w', job, t, ref.serviceId)
    requires owner(WantName(job, t)) == Some(job.app)
    ensures Working(w0, Pass(w', p.tracked[Addr(t) := ref], ok), job.app, owner, refs)
  {
    hide Mark;
    hide WantName;
    hide Addr;
    hide Mine;
    hide PutThere;
    PutThereHandled(p.w, w', job, t, ref.serviceId, owner);
    HandledTwice(w0, p.w, w', job.app, owner);
    PutThereMine(w0, p.w, w', job, t, ref.serviceId, owner, refs);
  }

  lemma CreateIntoWorks(w0: World, p: Pass, job: Job, t: EgressTarget, a: CreateAnswers, pick: Picker, owner: Owner, refs: set<string>)
    requires Working(w0, p, job.app, owner, refs) && owner(WantName(job, t)) == Some(job.app)
    ensures Working(w0, CreateInto(p, job, t, a, pick), job.app, owner, refs)
  {
    hide CreateGateway;
    hide WantName;
    hide Addr;
    hide Mine;
    hide Mark;
    hide PutThere;
    CreatePuts(p.w, job, t, a, pick, owner);
    var (w', r) := CreateGateway(p.w, job, t, a, pick);
    if r.Some? {
      WorkingPut(w0, p, w', p.ok, job, t, r.value, owner, refs);
    } else {
      WorkingSame(w0, p, Pass(w', p.tracked, false), job.app, owner, refs);
    }
  }

  lemma PutOneWorks(w0: World, p: Pass, job: Job, t: EgressTarget, a: PutAnswers, pick: Picker, owner: Owner, refs: set<string>)
    requires Working(w0, p, job.app, owner, refs) && owner(WantName(job, t)) == Some(job.app)
    ensures Working(w0, PutOne(p, job, t, a, pick), job.app, owner, refs)
  {
    hide CreateInto;
    hide UpdateGateway;
    hide WantName;
    hide WantHash;
    hide Addr;
    hide Mine;
    hide Handled;
    hide PutThere;
    hide Mark;
    CreateIntoWorks(w0, p, job, t, a.create, pick, owner, refs);
    if Addr(t) in p.tracked && p.tracked[Addr(t)].hash != WantHash(job, t) {
      var ref := p.tracked[Addr(t)];
      MineMarked(w0, p.w, job.app, owner, refs, ref.serviceId);
      UpdatePuts(p.w, job, t, ref, a.update);
      var (w', r) := UpdateGateway(p.w, job, t, ref, a.update);
      if r.Updated? {
        WorkingPut(w0, p, w', p.ok, job, t, r.ref, owner, refs);
      } else {
        var p1 := Pass(w', p.tracked - {Addr(t)}, r.Vanished? && p.ok);
        WorkingSame(w0, p, p1, job.app, owner, refs);
        CreateIntoWorks(w0, p1, job, t, a.create, pick, owner, refs);
      }
    }
  }

  /** The names the job may ask for are the app's. */
  ghost predicate JobOwns(job: Job, owner: Owner) {
    forall t :: t in job.eg.targets ==> owner(WantName(job, t)) == Some(job.app)
  }

  lemma {:induction false} PutLoopWorks(w0: World, p: Pass, job: Job, todo: set<string>, ans: Answers, owner: Owner, refs: set<string>)
    requires Working(w0, p, job.app, owner, refs) && JobOwns(job, owner) && todo <= Wanted(job).Keys
    ensures Working(w0, PutLoop(p, job, Wanted(job), todo, ans), job.app, owner, refs)
    decreases todo
  {
    hide PutOne;
    hide Working;
    hide WantName;
    if todo != {} {
      var addr := ans.pick(todo);
      PutOneWorks(w0, p, job, Wanted(job)[addr], ans.put(addr), ans.pick, owner, refs);
      PutLoopWorks(w0, PutOne(p, job, Wanted(job)[addr], ans.put(addr), ans.pick), job, todo - {addr}, ans, owner, refs);
    }
  }

  // ---------- a pass ----------

  lemma {:induction false} AdoptMine(w: World, app: string, out: map<string, GatewayRef>, known: set<string>, todo: set<string>, pick: Picker, refs: set<string>)
    requires todo <= Gateways(w, app) && w.services.Keys <= w.ids
    requires AllMine(w, w, app, refs, out)
    ensures AllMine(w, w, app, refs, Adopt(w, out, known, todo, pick))
    decreases todo
  {
    hide TargetAddr;
    hide LiveHash;
    if todo != {} {
      var s := pick(todo);
      var addr := TargetAddr(w.services[s].spec);
      assert Mine(w, w, app, refs, s);
      var out' :=
        if s in known || addr == "" || addr in out then out
        else out[addr := GatewayRef(addr, s, "", LiveHash(w.services[s].spec))];
      AdoptMine(w, app, out', known, todo - {s}, pick, refs);
    }
  }

  lemma {:induction false} StoreIndexFrom(refs: seq<GatewayRef>)
    ensures forall a :: a in StoreIndex(refs) ==> StoreIndex(refs)[a] in refs
  {
    if refs != [] {
      StoreIndexFrom(refs[..|refs| - 1]);
    }
  }

  /** The entry's own references are the app's to use. */
  ghost predicate OwnsEntry(w: World, app: string, owner: Owner) {
    && w.services.Keys <= w.ids && Marked(w.services, owner)
    && forall s :: s in RefIds(EntryOf(w, app)) ==> Mine(w, w, app, RefIds(EntryOf(w, app)), s)
  }

  lemma StartsWorking(w: World, app: string, owner: Owner, pick: Picker)
    requires OwnsEntry(w, app, owner)
    ensures Working(w, Pass(w, Tracked(w, app, pick), true), app, owner, RefIds(EntryOf(w, app)))
  {
    hide StoreIndex;
    hide Adopt;
    hide Mine;
    hide Mark;
    assert Handled(w, w, app, owner);
    var refs := EntryOf(w, app).gateways;
    var out := StoreIndex(refs);
    StoreIndexFrom(refs);
    forall a | a in out ensures Mine(w, w, app, RefIds(EntryOf(w, app)), out[a].serviceId) {
      assert out[a].serviceId in RefIds(EntryOf(w, app));
    }
    var ids := RefIds(EntryOf(w, app));
    AdoptMine(w, app, out, KnownServices(out), Gateways(w, app), pick, ids);
  }

  /** A whole step for the app: what it touched and what it refers to afterwards. */
  ghost predicate OwnStep(w: World, w': World, app: string, owner: Owner) {
    && Handled(w, w', app, owner) && w'.store - {app} == w.store - {app}
    && forall s :: s in RefIds(EntryOf(w', app)) ==> Mine(w, w', app, RefIds(EntryOf(w, app)), s)
  }

  lemma SlowPathOwns(w: World, job: Job, ans: Answers, owner: Owner)
    requires OwnsEntry(w, job.app, owner) && JobOwns(job, owner)
    ensures OwnStep(w, SlowPath(w, job, Tracked(w, job.app, ans.pick), ans).w, job.app, owner)
  {
    hide Tracked;
    hide RemoveLoop;
    hide PutLoop;
    hide SlowPath;
    hide OwnsEntry;
    hide JobOwns;
    hide SortedGateways;
    hide Mine;
    hide Handled;
    hide Wanted;
    hide WholeHash;
    var tracked := Tracked(w, job.app, ans.pick);
    var refs := RefIds(EntryOf(w, job.app));
    StartsWorking(w, job.app, owner, ans.pick);
    var p0 := Pass(w, tracked, true);
    RemoveLoopWorks(w, p0, Wanted(job).Keys, tracked.Keys, ans, job.app, owner, refs);
    RemoveLoopStore(p0, Wanted(job).Keys, tracked.Keys, ans);
    PutLoopWorks(w, Pruned(w, job, ans), job, Wanted(job).Keys, ans, owner, refs);
    PutLoopStore(Pruned(w, job, ans), job, Wanted(job), Wanted(job).Keys, ans);
    SlowPathIs(w, job, ans);
    var p := Diffed(w, job, ans);
    var w' := SlowPath(w, job, tracked, ans).w;
    SortedFrom(p.tracked, ans.pick);
    SameMine(w, p.w, w', job.app, owner, refs);
  }

  lemma SameMine(w0: World, w: World, w': World, app: string, owner: Owner, refs: set<string>)
    requires w'.services == w.services && w'.ids == w.ids
    ensures forall s :: Mine(w0, w, app, refs, s) ==> Mine(w0, w', app, refs, s)
    ensures Handled(w0, w, app, owner) ==> Handled(w0, w', app, owner)
  {
    hide Mark;
  }

  lemma {:induction false} ValuesFrom(m: map<string, GatewayRef>, keys: seq<string>)
    ensures forall r :: r in Values(m, keys) ==> exists a :: a in m && m[a] == r
  {
    if keys != [] {
      ValuesFrom(m, keys[1..]);
    }
  }

  lemma SortedFrom(m: map<string, GatewayRef>, pick: Picker)
    ensures forall r :: r in SortedGateways(m, pick) ==> exists a :: a in m && m[a] == r
  {
    hide Values;
    hide Enumerate;
    ValuesFrom(m, Sorting.Sort(Leq, Enumerate(m.Keys, pick)));
  }

  lemma IdleOwns(w: World, app: string, owner: Owner)
    requires OwnsEntry(w, app, owner)
    ensures OwnStep(w, w, app, owner)
  {
    hide Mark;
    hide Mine;
    hide RefIds;
  }

  lemma EgressPassOwns(w: World, job: Job, ans: Answers, owner: Owner)
    requires OwnsEntry(w, job.app, owner) && JobOwns(job, owner)
    ensures OwnStep(w, EgressPass(w, job, ans).w, job.app, owner)
  {
    hide EgressPass;
    hide SlowPath;
    hide Tracked;
    hide FastGate;
    hide OwnsEntry;
    hide JobOwns;
    hide OwnStep;
    EgressPassCases(w, job, ans);
    IdleOwns(w, job.app, owner);
    SlowPathOwns(w, job, ans, owner);
  }

  lemma TeardownEgressOwns(w: World, app: string, remove: string -> RemoveAnswers, owner: Owner)
    requires OwnsEntry(w, app, owner)
    ensures OwnStep(w, TeardownEgress(w, app, remove).w, app, owner)
    ensures EntryOf(TeardownEgress(w, app, remove).w, app).gateways == []
  {
    hide TeardownEgress;
    hide Mark;
    var e := EntryOf(w, app);
    EgressTeardownExact(w, app, remove);
    EmptiedRecord(w, app, remove);
    forall s | s in DeletedIds(e.gateways, remove) && s in w.services ensures Mark(w.services[s].spec) == Some(app) {
      var r :| r in e.gateways && r.serviceId == s;
      assert s in RefIds(e);
    }
  }

  lemma EmptiedRecord(w: World, app: string, remove: string -> RemoveAnswers)
    ensures EntryOf(TeardownEgress(w, app, remove).w, app).gateways == []
  {
    hide RemoveAll;
  }

  // ---------- from one entry to the whole store ----------

  lemma OwnedEntry(w: World, id: string, owner: Owner)
    requires Owned(w, owner)
    ensures OwnsEntry(w, id, owner)
  {
    hide Mark;
  }

  /** An owned store stays owned under a step for one service that may have an entry. */
  lemma OwnedAfter(w: World, w': World, id: string, owner: Owner)
    requires Owned(w, owner) && OwnStep(w, w', id, owner)
    requires id in w'.store ==> id in w.store || (id in w.services && Mark(w.services[id].spec).None?)
    ensures Owned(w', owner)
  {
    hide Mark;
    hide RefIds;
    OtherEntries(w, w', id);
    forall i, s | i in w'.store && s in RefIds(w'.store[i])
      ensures s in w'.ids && (s in w'.services ==> Mark(w'.services[s].spec) == Some(i)) {
      RefsAfter(w, w', id, i, s, owner);
    }
    hide Mine;
    forall i, j | i in w'.store && j in w'.store && i != j ensures RefIds(w'.store[i]) !! RefIds(w'.store[j]) {
      ApartAfter(w, w', id, i, j, owner);
    }
  }

  lemma RefsAfter(w: World, w': World, id: string, i: string, s: string, owner: Owner)
    requires Owned(w, owner) && OwnStep(w, w', id, owner) && i in w'.store && s in RefIds(w'.store[i])
    ensures s in w'.ids && (s in w'.services ==> Mark(w'.services[s].spec) == Some(i))
  {
    hide Mark;
    hide RefIds;
    OtherEntries(w, w', id);
    if i == id {
      assert Mine(w, w', id, RefIds(EntryOf(w, id)), s);
    }
  }

  lemma ApartAfter(w: World, w': World, id: string, i: string, j: string, owner: Owner)
    requires Owned(w, owner) && OwnStep(w, w', id, owner) && i in w'.store && j in w'.store && i != j
    ensures RefIds(w'.store[i]) !! RefIds(w'.store[j])
  {
    hide Mark;
    hide RefIds;
    hide Handled;
    hide Owned;
    OtherEntries(w, w', id);
    if i == id {
      NewRefsApart(w, w', id, j, owner);
    } else if j == id {
      NewRefsApart(w, w', id, i, owner);
    } else {
      OldRefsApart(w, i, j, owner);
    }
  }

  lemma OldRefsApart(w: World, i: string, j: string, owner: Owner)
    requires Owned(w, owner) && i in w.store && j in w.store && i != j
    ensures RefIds(w.store[i]) !! RefIds(w.store[j])
  {
    hide Mark;
    hide RefIds;
    hide Marked;
  }

  lemma NewRefsApart(w: World, w': World, id: string, i: string, owner: Owner)
    requires Owned(w, owner) && OwnStep(w, w', id, owner) && i in w.store && i != id
    ensures RefIds(EntryOf(w', id)) !! RefIds(w.store[i])
  {
    hide Mark;
    hide RefIds;
    hide Handled;
    hide Owned;
    forall s | s in RefIds(w.store[i]) ensures s !in RefIds(EntryOf(w', id)) {
      NotMine(w, id, i, s, owner);
      assert s in RefIds(EntryOf(w', id)) ==> Mine(w, w', id, RefIds(EntryOf(w, id)), s);
    }
  }

  lemma NotMine(w: World, id: string, i: string, s: string, owner: Owner)
    requires Owned(w, owner) && i != id && i in w.store && s in RefIds(w.store[i])
    ensures s !in RefIds(EntryOf(w, id)) && s in w.ids && (s in w.services ==> Mark(w.services[s].spec) != Some(id))
  {
    hide Mark;
  }

  // ---------- passes and runs ----------

  /** If the service asks for egress, the names it asks for are its own. */
  ghost predicate AsksForOwn(w: World, d: Daemon, id: string, s: Script, owner: Owner) {
    var v := Decide(w.services, d, id, s);
    v.Up? && v.target.egress.Some? ==> JobOwns(Job(d.cfg, id, v.target.egress.value, d.image), owner)
  }

  lemma OwnStepFrom(w: World, w1: World, w2: World, id: string, owner: Owner)
    requires OwnsEntry(w, id, owner) && EgressKept(w, w1, id)
    ensures OwnsEntry(w1, id, owner)
    ensures OwnStep(w1, w2, id, owner) ==> OwnStep(w, w2, id, owner)
  {
    hide Mark;
    var refs := RefIds(EntryOf(w, id));
    assert RefIds(EntryOf(w1, id)) == refs;
    forall s | Mine(w, w, id, refs, s) ensures Mine(w1, w1, id, refs, s) {}
    forall s | Mine(w1, w2, id, refs, s) ensures Mine(w, w2, id, refs, s) {}
  }

  lemma ReconcileOwnStep(w: World, d: Daemon, id: string, s: Script, owner: Owner)
    requires OwnsEntry(w, id, owner) && AsksForOwn(w, d, id, s, owner)
    ensures OwnStep(w, ReconcileService(w, d, id, s).w, id, owner)
  {
    hide ReconcileService;
    hide Decide;
    hide TeardownIngress;
    hide TeardownEgress;
    hide IngressPass;
    hide EgressPass;
    hide EgressKept;
    hide OwnsEntry;
    hide OwnStep;
    hide JobOwns;
    ReconcileDecides(w, d, id, s);
    IdleOwns(w, id, owner);
    match Decide(w.services, d, id, s)
    case Skip =>
    case Down =>
      TornKeepsEgress(w, id, s.ingress);
      var w1 := TeardownIngress(w, id, s.ingress).w;
      var w2 := TeardownEgress(w1, id, s.egress.remove).w;
      OwnStepFrom(w, w1, w2, id, owner);
      TeardownEgressOwns(w1, id, s.egress.remove, owner);
      DeletedOwns(w, w2, id, owner);
    case Up(tgt) =>
      IngressKeepsEgress(w, id, tgt, d.cfg, s.ingress);
      var w1 := IngressPass(w, id, tgt, d.cfg, s.ingress).w;
      OwnStepFrom(w, w1, EgressStep(w1, d, id, tgt, s.egress).w, id, owner);
      if tgt.egress.None? {
        TeardownEgressOwns(w1, id, s.egress.remove, owner);
      } else {
        EgressPassOwns(w1, Job(d.cfg, id, tgt.egress.value, d.image), s.egress, owner);
      }
  }

  lemma DeletedOwns(w: World, w2: World, id: string, owner: Owner)
    requires OwnStep(w, w2, id, owner)
    ensures OwnStep(w, Delete(w2, id), id, owner)
  {
    hide Mark;
    hide Mine;
    assert RefIds(ZERO_ENTRY) == {};
  }

  lemma EntryOnlyForApps(w: World, d: Daemon, id: string, s: Script)
    ensures id in ReconcileService(w, d, id, s).w.store ==>
              id in w.store || (id in w.services && Mark(w.services[id].spec).None?)
  {
    hide ParseLabels;
    hide Teardown;
    hide IngressPass;
    hide EgressStep;
    TeardownExact(w, id, s);
  }

  /** One pass of any service, under any answers: ownership is kept, and only services
      marked for that app were removed or changed. */
  lemma PassKeepsOwnership(w: World, d: Daemon, id: string, s: Script, owner: Owner)
    requires Owned(w, owner) && AsksForOwn(w, d, id, s, owner)
    ensures var w' := ReconcileService(w, d, id, s).w;
            Owned(w', owner) && Handled(w, w', id, owner) && w'.store - {id} == w.store - {id}
  {
    hide ReconcileService;
    hide Mark;
    hide Owned;
    hide AsksForOwn;
    hide Handled;
    OwnedEntry(w, id, owner);
    ReconcileOwnStep(w, d, id, s, owner);
    EntryOnlyForApps(w, d, id, s);
    OwnedAfter(w, ReconcileService(w, d, id, s).w, id, owner);
  }

  /** What the rest of the world may do to the cluster: anything but reuse an ID, move a
      mark, or give a service a name that belies its mark. */
  ghost predicate FairChange(w: World, services: Services, ids: set<string>, owner: Owner) {
    && w.ids <= ids && services.Keys <= ids && Marked(services, owner)
    && (forall s :: s in services ==> s in w.services || s !in w.ids)
    && (forall s :: s in services && s in w.services ==> Mark(services[s].spec) == Mark(w.services[s].spec))
  }

  ghost predicate FairEvent(w: World, d: Daemon, ev: Event, owner: Owner) {
    match ev
    case Reconciled(id, s) => AsksForOwn(w, d, id, s, owner)
    case SwarmChanged(services, ids) => FairChange(w, services, ids, owner)
    case Shutdown(_) => true
  }

  /** Names are separated throughout the run. */
  ghost predicate Separated(w: World, d: Daemon, events: seq<Event>, owner: Owner)
    decreases events
  {
    events == [] || (FairEvent(w, d, events[0], owner) && Separated(Apply(w, d, events[0]), d, events[1..], owner))
  }

  lemma EventKeepsOwnership(w: World, d: Daemon, ev: Event, owner: Owner)
    requires Owned(w, owner) && FairEvent(w, d, ev, owner)
    ensures Owned(Apply(w, d, ev), owner)
  {
    hide ReconcileService;
    hide CloseAll;
    hide Mark;
    hide RefIds;
    hide AsksForOwn;
    match ev
    case Reconciled(id, s) => PassKeepsOwnership(w, d, id, s, owner);
    case SwarmChanged(services, ids) =>
    case Shutdown(pick) =>
      CloseAllEmpties(w, w.store.Keys, pick);
      CloseAllOutside(w, w.store.Keys, pick);
  }

  /** Exclusive ownership in every reachable state. */
  lemma {:induction false} OwnershipOverRun(w: World, d: Daemon, events: seq<Event>, owner: Owner)
    requires Owned(w, owner) && Separated(w, d, events, owner)
    ensures Owned(Run(w, d, events), owner)
    decreases events
  {
    hide Apply;
    hide Owned;
    hide FairEvent;
    if events != [] {
      EventKeepsOwnership(w, d, events[0], owner);
      OwnershipOverRun(Apply(w, d, events[0]), d, events[1..], owner);
    }
  }

  // ---------- gateways never trigger themselves ----------

  /** The ID of a gateway, running or already removed. */
  ghost predicate GatewayId(w: World, id: string) {
    id in w.ids && id !in w.store && (id in w.services ==> Mark(w.services[id].spec).Some?)
  }

  /** A running gateway is one: no entry is keyed by it. */
  lemma RunningGatewayId(w: World, id: string, owner: Owner)
    requires Owned(w, owner) && id in w.services && IsGateway(w.services[id].spec)
    ensures GatewayId(w, id)
  {
  }

  /** Reconciling it changes nothing at all, whatever the outside world answers. */
  lemma GatewayIsSkipped(w: World, d: Daemon, id: string, s: Script)
    requires GatewayId(w, id)
    ensures ReconcileService(w, d, id, s).w == w
  {
    hide ParseLabels;
    hide IngressPass;
    hide EgressStep;
    if id !in w.services {
      assert Delete(w, id) == w;
    }
  }

  lemma GatewayIdStays(w: World, d: Daemon, ev: Event, owner: Owner, id: string)
    requires Owned(w, owner) && FairEvent(w, d, ev, owner) && GatewayId(w, id)
    ensures GatewayId(Apply(w, d, ev), id)
  {
    hide ReconcileService;
    hide CloseAll;
    hide Mark;
    hide Owned;
    hide AsksForOwn;
    match ev
    case Reconciled(app, s) =>
      if app == id {
        GatewayIsSkipped(w, d, id, s);
      } else {
        PassKeepsOwnership(w, d, app, s, owner);
        OtherEntries(w, Apply(w, d, ev), app);
      }
    case SwarmChanged(services, ids) =>
    case Shutdown(pick) =>
      CloseAllEmpties(w, w.store.Keys, pick);
      CloseAllOutside(w, w.store.Keys, pick);
  }

  /** Self-trigger freedom: once a gateway, an ID is reconciled to no effect for ever after,
      also after the gateway is gone. */
  lemma {:induction false} GatewayNeverTriggers(w: World, d: Daemon, events: seq<Event>, owner: Owner, id: string, s: Script)
    requires Owned(w, owner) && Separated(w, d, events, owner) && GatewayId(w, id)
    ensures var w' := Run(w, d, events);
            ReconcileService(w', d, id, s).w == w'
    decreases events
  {
    hide Apply;
    hide Owned;
    hide FairEvent;
    hide GatewayId;
    hide ReconcileService;
    if events == [] {
      GatewayIsSkipped(w, d, id, s);
    } else {
      EventKeepsOwnership(w, d, events[0], owner);
      GatewayIdStays(w, d, events[0], owner, id);
      GatewayNeverTriggers(Apply(w, d, events[0]), d, events[1..], owner, id, s);
    }
  }
}
