/** What the daemon's records say of keys and proxies is true of what runs: a recorded key is
    the one its gateway logs in with, and a recorded proxy was started with the configuration
    and the key its entry names. */
module Credentials {
  import opened Text
  import opened Targets
  import opened Gateway
  import opened Labels
  import opened World
  import opened Egress
  import opened Reconcile
  import opened Mirror
  import opened Loops
  import opened Convergence
  import opened EgressTheorems
  import opened Ledger
  import opened Conservation
  import opened Proxies
  import opened Teardowns
  import opened Independence

  /** The secret Headscale issues with each key ID. */
  type Vault = string -> string

  predicate Issued(vault: Vault, key: Option<Key>) { key.Some? ==> key.value.secret == vault(key.value.id) }

  ghost predicate IssuedPuts(vault: Vault, put: string -> PutAnswers) {
    forall a :: Issued(vault, put(a).update.key) && Issued(vault, put(a).create.key)
  }

  /** If the line names a key and its gateway runs for the app at its address, that gateway
      logs in with that key. */
  predicate LineCarries(v: Services, app: string, r: GatewayRef, vault: Vault) {
    r.keyId != "" && Runs(v, app, r.serviceId) && AddrOf(v, r.serviceId) == r.target ==>
      AuthKey(v[r.serviceId].spec) == vault(r.keyId)
  }

  // ---------- one pass ----------

  ghost predicate TrackedCarry(p: Pass, app: string, vault: Vault) {
    && p.w.services.Keys <= p.w.ids
    && forall a :: a in p.tracked ==>
         p.tracked[a].target == a && p.tracked[a].serviceId in p.w.ids && LineCarries(p.w.services, app, p.tracked[a], vault)
  }

  /** A step for the app: what it wrote is marked for it, and it took over no ID. */
  ghost predicate Kin(w: World, w': World, app: string) {
    && w.ids <= w'.ids && w'.services.Keys <= w'.ids
    && forall s :: s in w'.services ==>
         || (s in w.services && w'.services[s] == w.services[s])
         || (MarkedFor(w'.services[s].spec, app) && (s in w.services || s !in w.ids))
  }

  lemma KinTwice(w: World, w1: World, w2: World, app: string)
    requires Kin(w, w1, app) && Kin(w1, w2, app)
    ensures Kin(w, w2, app)
  {
    hide MarkedFor;
  }

  /** Service `sid` was written for `t` with the key the reference names; nothing else. */
  ghost predicate Written(w: World, w': World, job: Job, t: EgressTarget, ref: GatewayRef, key: Option<Key>) {
    && ref.target == Addr(t) && Carries(w'.services, ref, key)
    && w'.services == w.services[ref.serviceId := w'.services[ref.serviceId]]
    && w.ids <= w'.ids && w'.services.Keys <= w'.ids && (ref.serviceId in w.services || ref.serviceId !in w.ids)
    && MarkedFor(w'.services[ref.serviceId].spec, job.app) && TargetAddr(w'.services[ref.serviceId].spec) == Addr(t)
  }

  lemma WrittenSpec(w: World, w': World, job: Job, t: EgressTarget, ref: GatewayRef, key: Key)
    requires ref.target == Addr(t) && ref.keyId == key.id && ref.serviceId in w'.services
    requires w'.services[ref.serviceId].spec == WantSpec(job, t, key.secret)
    requires w'.services == w.services[ref.serviceId := w'.services[ref.serviceId]]
    requires w.ids <= w'.ids && w'.services.Keys <= w'.ids && (ref.serviceId in w.services || ref.serviceId !in w.ids)
    ensures Written(w, w', job, t, ref, Some(key))
  {
    hide AuthKey;
    hide TargetAddr;
    hide MarkedFor;
    SpecFaithful(job.cfg, job.eg, t, job.app, job.image, key.secret);
  }

  /** An adoption by name writes the key it was given, whoever held the name. */
  lemma AdoptWrites(w: World, job: Job, t: EgressTarget, key: Key, a: CreateAnswers, pick: Picker)
    requires w.services.Keys <= w.ids
    ensures var (w', r) := AdoptExisting(w, job, t, key, a, pick);
            if r.None? then w'.services == w.services && w'.ids == w.ids else Written(w, w', job, t, r.value, Some(key))
  {
    hide WantSpec;
    hide WantHash;
    hide Addr;
    hide Written;
    hide UpdateService;
    var (w', r) := AdoptExisting(w, job, t, key, a, pick);
    var spec := WantSpec(job, t, key.secret);
    var holders := Named(w, spec.name);
    if holders != {} {
      UpdateServiceIs(w, pick(holders), w.services[pick(holders)].version, spec, a.update);
    }
    if r.Some? {
      WrittenSpec(w, w', job, t, r.value, key);
    }
  }

  lemma CreateWrites(w: World, job: Job, t: EgressTarget, a: CreateAnswers, pick: Picker)
    requires w.services.Keys <= w.ids
    ensures var (w', r) := CreateGateway(w, job, t, a, pick);
            if r.None? then w'.services == w.services && w'.ids == w.ids else Written(w, w', job, t, r.value, a.key)
  {
    hide WantSpec;
    hide WantHash;
    hide Addr;
    hide Written;
    hide AdoptExisting;
    hide CreateService;
    hide Mint;
    var (w', r) := CreateGateway(w, job, t, a, pick);
    if a.wait {
      var (w1, key) := Mint(w, a.key);
      MintKeeps(w, a.key);
      if key.Some? {
        var (w2, c) := CreateService(w1, WantSpec(job, t, key.value.secret), a.id);
        CreateServiceIs(w1, WantSpec(job, t, key.value.secret), a.id);
        if c.Created? {
          WrittenSpec(w, w', job, t, r.value, key.value);
        } else if c.Exists? {
          AdoptWrites(w2, job, t, key.value, a, pick);
          if r.Some? {
            WrittenFrom(w, w2, w', job, t, r.value, a.key);
          }
        }
      }
    }
  }

  lemma WrittenFrom(w: World, w1: World, w': World, job: Job, t: EgressTarget, ref: GatewayRef, key: Option<Key>)
    requires w1.services == w.services && w1.ids == w.ids && Written(w1, w', job, t, ref, key)
    ensures Written(w, w', job, t, ref, key)
  {
    hide Carries;
    hide MarkedFor;
    hide TargetAddr;
    hide Addr;
  }

  lemma UpdateWrites(w: World, job: Job, t: EgressTarget, ref: GatewayRef, a: UpdateAnswers)
    requires w.services.Keys <= w.ids
    ensures var (w', r) := UpdateGateway(w, job, t, ref, a);
            if r.Updated? then Written(w, w', job, t, r.ref, a.key) else w'.services == w.services && w'.ids == w.ids
  {
    hide WantSpec;
    hide WantHash;
    hide Addr;
    hide Written;
    hide UpdateService;
    hide Mint;
    var (w', r) := UpdateGateway(w, job, t, ref, a);
    MintKeeps(w, a.key);
    var (w1, key) := Mint(w, a.key);
    if key.Some? && ref.serviceId in w.services {
      UpdateServiceIs(w1, ref.serviceId, w.services[ref.serviceId].version, WantSpec(job, t, key.value.secret), a.update);
    }
    if r.Updated? {
      WrittenSpec(w, w', job, t, r.ref, a.key.value);
    }
  }

  /** After a write, the new line carries its key, and a line that shared the service no
      longer has it at its address. */
  lemma WrittenCarry(p: Pass, w': World, ok: bool, job: Job, t: EgressTarget, ref: GatewayRef, key: Option<Key>, vault: Vault)
    requires TrackedCarry(p, job.app, vault) && Written(p.w, w', job, t, ref, key) && Issued(vault, key)
    ensures TrackedCarry(Pass(w', p.tracked[Addr(t) := ref], ok), job.app, vault) && Kin(p.w, w', job.app)
  {
    hide AuthKey;
    hide MarkedFor;
    hide TargetAddr;
    hide Addr;
    forall a | a in p.tracked && a != Addr(t) ensures LineCarries(w'.services, job.app, p.tracked[a], vault) {
      assert LineCarries(p.w.services, job.app, p.tracked[a], vault);
    }
  }

  lemma SameCarry(p: Pass, p': Pass, app: string, vault: Vault)
    requires TrackedCarry(p, app, vault) && Submap(p'.tracked, p.tracked) && Submap(p'.w.services, p.w.services) && p'.w.ids == p.w.ids
    ensures TrackedCarry(p', app, vault) && Kin(p.w, p'.w, app)
  {
    hide AuthKey;
    hide MarkedFor;
    hide TargetAddr;
    forall a | a in p'.tracked ensures LineCarries(p'.w.services, app, p'.tracked[a], vault) {
      assert LineCarries(p.w.services, app, p.tracked[a], vault);
    }
  }

  lemma CreateCarries(p: Pass, job: Job, t: EgressTarget, a: CreateAnswers, pick: Picker, vault: Vault)
    requires TrackedCarry(p, job.app, vault) && Issued(vault, a.key)
    ensures var p' := CreateInto(p, job, t, a, pick); TrackedCarry(p', job.app, vault) && Kin(p.w, p'.w, job.app)
  {
    hide CreateGateway;
    hide Written;
    hide LineCarries;
    hide Kin;
    hide Addr;
    CreateWrites(p.w, job, t, a, pick);
    var (w', r) := CreateGateway(p.w, job, t, a, pick);
    if r.Some? {
      WrittenCarry(p, w', p.ok, job, t, r.value, a.key, vault);
    } else {
      SameCarry(p, CreateInto(p, job, t, a, pick), job.app, vault);
    }
  }

  lemma PutOneCarries(p: Pass, job: Job, t: EgressTarget, a: PutAnswers, pick: Picker, vault: Vault)
    requires TrackedCarry(p, job.app, vault) && Issued(vault, a.update.key) && Issued(vault, a.create.key)
    ensures var p' := PutOne(p, job, t, a, pick); TrackedCarry(p', job.app, vault) && Kin(p.w, p'.w, job.app)
  {
    hide CreateInto;
    hide UpdateGateway;
    hide Written;
    hide LineCarries;
    hide Kin;
    hide WantHash;
    hide Addr;
    var addr := Addr(t);
    SameCarry(p, p, job.app, vault);
    if addr !in p.tracked {
      CreateCarries(p, job, t, a.create, pick, vault);
    } else if p.tracked[addr].hash != WantHash(job, t) {
      UpdateWrites(p.w, job, t, p.tracked[addr], a.update);
      var (w', r) := UpdateGateway(p.w, job, t, p.tracked[addr], a.update);
      match r
      case Updated(ref) => WrittenCarry(p, w', p.ok, job, t, ref, a.update.key, vault);
      case UpdateFailed => SameCarry(p, Pass(w', p.tracked - {addr}, false), job.app, vault);
      case Vanished =>
        var p1 := Pass(w', p.tracked - {addr}, p.ok);
        SameCarry(p, p1, job.app, vault);
        CreateCarries(p1, job, t, a.create, pick, vault);
        KinTwice(p.w, w', CreateInto(p1, job, t, a.create, pick).w, job.app);
    }
  }

  lemma {:induction false} PutLoopCarries(p: Pass, job: Job, todo: set<string>, ans: Answers, vault: Vault)
    requires TrackedCarry(p, job.app, vault) && todo <= Wanted(job).Keys && IssuedPuts(vault, ans.put)
    ensures var p' := PutLoop(p, job, Wanted(job), todo, ans); TrackedCarry(p', job.app, vault) && Kin(p.w, p'.w, job.app)
    decreases todo
  {
    hide PutOne;
    hide Wanted;
    hide LineCarries;
    hide Kin;
    hide Issued;
    if todo == {} {
      SameCarry(p, p, job.app, vault);
    } else {
      var addr := ans.pick(todo);
      var p1 := PutOne(p, job, Wanted(job)[addr], ans.put(addr), ans.pick);
      PutOneCarries(p, job, Wanted(job)[addr], ans.put(addr), ans.pick, vault);
      PutLoopCarries(p1, job, todo - {addr}, ans, vault);
      KinTwice(p.w, p1.w, PutLoop(p1, job, Wanted(job), todo - {addr}, ans).w, job.app);
    }
  }

  lemma {:induction false} RemoveLoopCarries(p: Pass, app: string, keep: set<string>, todo: set<string>, ans: Answers, vault: Vault)
    requires TrackedCarry(p, app, vault) && todo <= p.tracked.Keys
    ensures var p' := RemoveLoop(p, keep, todo, ans); TrackedCarry(p', app, vault) && Kin(p.w, p'.w, app)
    decreases todo
  {
    hide RemoveOne;
    hide LineCarries;
    hide Kin;
    SameCarry(p, p, app, vault);
    if todo != {} {
      var addr := ans.pick(todo);
      if addr in keep {
        RemoveLoopCarries(p, app, keep, todo - {addr}, ans, vault);
      } else {
        var p1 := RemoveOne(p, addr, ans.remove(addr));
        RemoveOneExact(p, addr, ans.remove(addr));
        SameCarry(p, p1, app, vault);
        RemoveLoopCarries(p1, app, keep, todo - {addr}, ans, vault);
        KinTwice(p.w, p1.w, RemoveLoop(p1, keep, todo - {addr}, ans).w, app);
      }
    }
  }

  // ---------- one entry ----------

  ghost predicate EntryCarries(w: World, app: string, vault: Vault) {
    forall r :: r in EntryOf(w, app).gateways ==> r.serviceId in w.ids && LineCarries(w.services, app, r, vault)
  }

  lemma {:induction false} StoreIndexKeyed(refs: seq<GatewayRef>)
    ensures forall a :: a in StoreIndex(refs) ==> StoreIndex(refs)[a] in refs && StoreIndex(refs)[a].target == a
  {
    if refs != [] {
      StoreIndexKeyed(refs[..|refs| - 1]);
    }
  }

  lemma {:induction false} AdoptCarries(w: World, app: string, out: map<string, GatewayRef>, known: set<string>, todo: set<string>, pick: Picker, vault: Vault)
    requires TrackedCarry(Pass(w, out, true), app, vault) && todo <= w.services.Keys
    ensures TrackedCarry(Pass(w, Adopt(w, out, known, todo, pick), true), app, vault)
    decreases todo
  {
    hide TargetAddr;
    hide LiveHash;
    hide AuthKey;
    hide MarkedFor;
    if todo != {} {
      var s := pick(todo);
      var addr := TargetAddr(w.services[s].spec);
      var out' :=
        if s in known || addr == "" || addr in out then out
        else out[addr := GatewayRef(addr, s, "", LiveHash(w.services[s].spec))];
      AdoptCarries(w, app, out', known, todo - {s}, pick, vault);
    }
  }

  lemma StartsCarrying(w: World, app: string, pick: Picker, vault: Vault)
    requires w.services.Keys <= w.ids && EntryCarries(w, app, vault)
    ensures TrackedCarry(Pass(w, Tracked(w, app, pick), true), app, vault)
  {
    hide StoreIndex;
    hide Adopt;
    hide LineCarries;
    hide MarkedFor;
    var out := StoreIndex(EntryOf(w, app).gateways);
    StoreIndexKeyed(EntryOf(w, app).gateways);
    AdoptCarries(w, app, out, KnownServices(out), Gateways(w, app), pick, vault);
  }

  /** One egress pass, under any answers, any names and any order. */
  lemma EgressPassCarries(w: World, job: Job, ans: Answers, vault: Vault)
    requires w.services.Keys <= w.ids && EntryCarries(w, job.app, vault) && IssuedPuts(vault, ans.put)
    ensures var w' := EgressPass(w, job, ans).w; EntryCarries(w', job.app, vault) && Kin(w, w', job.app)
  {
    hide Tracked;
    hide FastGate;
    hide EgressPass;
    hide SlowPath;
    hide RemoveLoop;
    hide PutLoop;
    hide Wanted;
    hide LineCarries;
    hide Kin;
    hide SortedGateways;
    hide WholeHash;
    hide IssuedPuts;
    EgressPassCases(w, job, ans);
    var tracked, p1, p2 := Tracked(w, job.app, ans.pick), Pruned(w, job, ans), Diffed(w, job, ans);
    StartsCarrying(w, job.app, ans.pick, vault);
    SameCarry(Pass(w, tracked, true), Pass(w, tracked, true), job.app, vault);
    RemoveLoopCarries(Pass(w, tracked, true), job.app, Wanted(job).Keys, tracked.Keys, ans, vault);
    PutLoopCarries(p1, job, Wanted(job).Keys, ans, vault);
    KinTwice(w, p1.w, p2.w, job.app);
    SlowPathIs(w, job, ans);
    SortedGatewaysExact(p2.tracked, ans.pick);
    KinPut(w, p2.w, EgressPass(w, job, ans).w, job.app);
  }

  lemma KinPut(w: World, w1: World, w': World, app: string)
    requires Kin(w, w1, app)
    ensures w'.services == w1.services && w'.ids == w1.ids ==> Kin(w, w', app)
  {
    hide MarkedFor;
  }

  // ---------- the whole store ----------

  /** The proxy of an entry was started with the configuration its hash is of and with the
      secret of the key it names. */
  ghost predicate ProxyCarries(w: World, id: string, vault: Vault) {
    var e := EntryOf(w, id);
    e.proxy.Some? ==>
      && e.proxy.value in w.started && e.proxy.value in w.launched
      && e.specHash == HashOf(w.launched[e.proxy.value].config) && w.launched[e.proxy.value].authKey == vault(e.preAuthKey)
  }

  ghost predicate Truthful(w: World, vault: Vault) {
    && w.services.Keys <= w.ids
    && forall id :: EntryCarries(w, id, vault) && ProxyCarries(w, id, vault)
  }

  ghost predicate IssuedScript(vault: Vault, s: Script) { Issued(vault, s.ingress.key) && IssuedPuts(vault, s.egress.put) }

  /** Another app's lines are as true as before: what was written is marked for this one. */
  lemma KinCarries(w: World, w': World, app: string, other: string, vault: Vault)
    requires Kin(w, w', app) && app != other && EntryCarries(w, other, vault) && EntryOf(w', other) == EntryOf(w, other)
    ensures EntryCarries(w', other, vault)
  {
    hide AuthKey;
    hide TargetAddr;
    forall r | r in EntryOf(w, other).gateways ensures r.serviceId in w'.ids && LineCarries(w'.services, other, r, vault) {
      assert LineCarries(w.services, other, r, vault);
    }
  }

  lemma KinSelf(w: World, app: string)
    requires w.services.Keys <= w.ids
    ensures Kin(w, w, app)
  {
    hide MarkedFor;
  }

  /** A step for one service that keeps its own lines and its proxy true keeps the store true. */
  lemma StepTruthful(w: World, w': World, id: string, vault: Vault)
    requires Truthful(w, vault) && Kin(w, w', id) && w'.store - {id} == w.store - {id}
    requires EntryCarries(w', id, vault) && ProxyCarries(w', id, vault)
    requires forall p :: p in w.started ==> p in w'.started
    requires forall p :: p in w.started && p in w.launched ==> p in w'.launched && w'.launched[p] == w.launched[p]
    ensures Truthful(w', vault)
  {
    hide EntryCarries;
    hide HashOf;
    hide MarkedFor;
    EntryFrame(w, w', id);
    forall i | i != id ensures EntryCarries(w', i, vault) && ProxyCarries(w', i, vault) {
      assert EntryCarries(w, i, vault) && ProxyCarries(w, i, vault);
      KinCarries(w, w', id, i, vault);
    }
  }

  lemma IngressTruthful(w: World, id: string, tgt: Target, cfg: Config, a: IngressAnswers, vault: Vault)
    requires Truthful(w, vault) && Issued(vault, a.key)
    ensures Truthful(IngressPass(w, id, tgt, cfg, a).w, vault)
  {
    hide HashOf;
    hide IngressPass;
    hide EntryCarries;
    hide Kin;
    var w' := IngressPass(w, id, tgt, cfg, a).w;
    IngressKeepsEgress(w, id, tgt, cfg, a);
    assert EntryCarries(w, id, vault) && ProxyCarries(w, id, vault);
    SameLines(w, w', id, vault);
    KinSelf(w, id);
    KinPut(w, w, w', id);
    if tgt.ingress {
      StartExact(w, id, tgt, cfg, a);
      ViewOf(EntryOf(w', id));
      ViewOf(EntryOf(w, id));
    } else {
      IngressIsTeardown(w, id, tgt, cfg, a);
      TornTruthful(w, id, a, vault);
    }
    StepTruthful(w, w', id, vault);
  }

  lemma IngressIsTeardown(w: World, id: string, tgt: Target, cfg: Config, a: IngressAnswers)
    requires !tgt.ingress
    ensures IngressPass(w, id, tgt, cfg, a) == TeardownIngress(w, id, a)
  {
    hide TeardownIngress;
  }

  lemma ViewOf(e: Entry)
    ensures InOnly(e).proxy == e.proxy && InOnly(e).specHash == e.specHash && InOnly(e).preAuthKey == e.preAuthKey
  {
  }

  lemma SameLines(w: World, w': World, id: string, vault: Vault)
    requires EntryCarries(w, id, vault) && w'.services == w.services && w'.ids == w.ids
    requires forall r :: r in EntryOf(w', id).gateways ==> r in EntryOf(w, id).gateways
    ensures EntryCarries(w', id, vault)
  {
    hide LineCarries;
  }

  lemma TornTruthful(w: World, id: string, a: IngressAnswers, vault: Vault)
    requires ProxyCarries(w, id, vault)
    ensures var w' := TeardownIngress(w, id, a).w;
            ProxyCarries(w', id, vault) && w'.started == w.started && w'.launched == w.launched
  {
    hide HashOf;
    hide TeardownIngress;
    IngressTeardownExact(w, id, a);
    TornEntry(w, id, a);
    ViewOf(EntryOf(TeardownIngress(w, id, a).w, id));
    ViewOf(EntryOf(w, id));
  }

  lemma KeptProxy(w: World, w': World, id: string, vault: Vault)
    requires ProxyCarries(w, id, vault) && ProxiesKept(w, w', id)
    ensures ProxyCarries(w', id, vault)
  {
    hide HashOf;
    ViewOf(EntryOf(w, id));
    ViewOf(EntryOf(w', id));
  }

  lemma EgressStepTruthful(w: World, d: Daemon, id: string, tgt: Target, ans: Answers, vault: Vault)
    requires Truthful(w, vault) && IssuedPuts(vault, ans.put) && Tidy(EntryOf(w, id))
    ensures Truthful(EgressStep(w, d, id, tgt, ans).w, vault)
  {
    hide EgressPass;
    hide TeardownEgress;
    hide EntryCarries;
    hide ProxyCarries;
    hide Kin;
    hide IssuedPuts;
    hide Tidy;
    hide InOnly;
    var w' := EgressStep(w, d, id, tgt, ans).w;
    assert EntryCarries(w, id, vault) && ProxyCarries(w, id, vault);
    EgressKeepsProxies(w, d, id, tgt, ans);
    KeptProxy(w, w', id, vault);
    if tgt.egress.None? {
      TeardownCarries(w, id, ans.remove, vault);
    } else {
      EgressPassCarries(w, Job(d.cfg, id, tgt.egress.value, d.image), ans, vault);
    }
    StepTruthful(w, w', id, vault);
  }

  lemma TeardownCarries(w: World, app: string, remove: string -> RemoveAnswers, vault: Vault)
    requires w.services.Keys <= w.ids && EntryCarries(w, app, vault)
    ensures var w' := TeardownEgress(w, app, remove).w; EntryCarries(w', app, vault) && Kin(w, w', app)
  {
    hide RemoveAll;
    hide DeletedIds;
    hide RetiredKeys;
    hide LineCarries;
    hide MarkedFor;
    EgressTeardownExact(w, app, remove);
  }

  lemma TeardownTruthful(w: World, id: string, s: Script, vault: Vault)
    requires Truthful(w, vault)
    ensures Truthful(Teardown(w, id, s).w, vault)
  {
    hide Teardown;
    hide DeletedIds;
    hide RetiredKeys;
    hide EntryCarries;
    hide HashOf;
    hide Kin;
    var w' := Teardown(w, id, s).w;
    TeardownExact(w, id, s);
    KinGone(w, w', id, DeletedIds(EntryOf(w, id).gateways, s.egress.remove));
    NoLinesCarry(w', id, vault);
    StepTruthful(w, w', id, vault);
  }

  lemma KinGone(w: World, w': World, app: string, gone: set<string>)
    requires w.services.Keys <= w.ids && w'.services == w.services - gone && w'.ids == w.ids
    ensures Kin(w, w', app)
  {
    hide MarkedFor;
  }

  lemma NoLinesCarry(w: World, id: string, vault: Vault)
    requires id !in w.store
    ensures EntryCarries(w, id, vault)
  {
  }

  /** One pass of any service, under any answers: Headscale's are true to the vault. */
  lemma PassTruthful(w: World, d: Daemon, id: string, s: Script, vault: Vault)
    requires Truthful(w, vault) && KeyInv(w) && IssuedScript(vault, s)
    ensures Truthful(ReconcileService(w, d, id, s).w, vault)
  {
    hide ReconcileService;
    hide Decide;
    hide Teardown;
    hide IngressPass;
    hide EgressStep;
    hide Truthful;
    hide KeyInv;
    hide Tidy;
    hide Issued;
    hide IssuedPuts;
    ReconcileDecides(w, d, id, s);
    match Decide(w.services, d, id, s)
    case Skip =>
    case Down => TeardownTruthful(w, id, s, vault);
    case Up(tgt) =>
      InvTidy(w);
      IngressTruthful(w, id, tgt, d.cfg, s.ingress, vault);
      IngressKeepsTidy(w, id, tgt, d.cfg, s.ingress);
      EgressStepTruthful(IngressPass(w, id, tgt, d.cfg, s.ingress).w, d, id, tgt, s.egress, vault);
  }

  // ---------- runs ----------

  /** What Headscale and the rest of the world may do: keys come with the secrets of the
      vault, IDs are not reused, and nobody else rewrites a gateway. */
  ghost predicate Untampered(w: World, ev: Event, vault: Vault) {
    match ev
    case Reconciled(_, s) => IssuedScript(vault, s)
    case SwarmChanged(services, ids) =>
      && w.ids <= ids && services.Keys <= ids
      && forall s :: s in services && IsGateway(services[s].spec) ==>
           (s in w.services && services[s].spec == w.services[s].spec) || s !in w.ids
    case Shutdown(_) => true
  }

  ghost predicate AllUntampered(w: World, d: Daemon, events: seq<Event>, vault: Vault)
    decreases events
  {
    events == [] || (Untampered(w, events[0], vault) && AllUntampered(Apply(w, d, events[0]), d, events[1..], vault))
  }

  lemma ChangeTruthful(w: World, services: Services, ids: set<string>, vault: Vault)
    requires Truthful(w, vault) && Untampered(w, SwarmChanged(services, ids), vault)
    ensures Truthful(w.(services := services, ids := ids), vault)
  {
    hide HashOf;
    hide AuthKey;
    hide TargetAddr;
    var w' := w.(services := services, ids := ids);
    forall id ensures EntryCarries(w', id, vault) && ProxyCarries(w', id, vault) {
      assert EntryCarries(w, id, vault) && ProxyCarries(w, id, vault);
      forall r | r in EntryOf(w', id).gateways ensures r.serviceId in w'.ids && LineCarries(services, id, r, vault) {
        assert LineCarries(w.services, id, r, vault);
      }
    }
  }

  lemma ShutdownTruthful(w: World, pick: Picker, vault: Vault)
    requires Truthful(w, vault)
    ensures Truthful(CloseAll(w, w.store.Keys, pick), vault)
  {
    hide CloseAll;
    hide LineCarries;
    hide HashOf;
    CloseAllEmpties(w, w.store.Keys, pick);
    CloseAllOutside(w, w.store.Keys, pick);
  }

  lemma EventTruthful(w: World, d: Daemon, ev: Event, vault: Vault)
    requires Truthful(w, vault) && KeyInv(w) && Untampered(w, ev, vault)
    ensures Truthful(Apply(w, d, ev), vault)
  {
    hide ReconcileService;
    hide CloseAll;
    hide Truthful;
    hide KeyInv;
    hide IssuedScript;
    hide IsGateway;
    match ev
    case Reconciled(id, s) => PassTruthful(w, d, id, s, vault);
    case SwarmChanged(services, ids) => ChangeTruthful(w, services, ids, vault);
    case Shutdown(pick) => ShutdownTruthful(w, pick, vault);
  }

  /** In every reachable state, whatever fails, whatever the names: a gateway that runs where
      its line says logs in with the key the line names, and a stored proxy runs on the
      configuration and the key its entry names. */
  lemma {:induction false} TruthfulOverRun(w: World, d: Daemon, events: seq<Event>, vault: Vault)
    requires Truthful(w, vault) && KeyInv(w) && AllUntampered(w, d, events, vault)
    ensures Truthful(Run(w, d, events), vault) && KeyInv(Run(w, d, events))
    decreases events
  {
    hide Apply;
    hide Truthful;
    hide KeyInv;
    hide Untampered;
    if events != [] {
      EventTruthful(w, d, events[0], vault);
      EventSettles(w, d, events[0]);
      TruthfulOverRun(Apply(w, d, events[0]), d, events[1..], vault);
    }
  }

  /** So no recorded gateway is ever left with a dead key: the key it logs in with was minted
      and has not been passed to ExpireKey. */
  lemma GatewaysCanLogIn(w: World, d: Daemon, events: seq<Event>, vault: Vault, id: string, r: GatewayRef)
    requires Truthful(w, vault) && KeyInv(w) && AllUntampered(w, d, events, vault)
    requires var w' := Run(w, d, events);
             && id in w'.store && r in w'.store[id].gateways && r.keyId != ""
             && Runs(w'.services, id, r.serviceId) && AddrOf(w'.services, r.serviceId) == r.target
    ensures var w' := Run(w, d, events);
            && AuthKey(w'.services[r.serviceId].spec) == vault(r.keyId)
            && r.keyId in w'.minted && r.keyId !in w'.expired
  {
    hide Run;
    hide AllUntampered;
    hide AuthKey;
    hide TargetAddr;
    hide MarkedFor;
    hide Shape;
    TruthfulOverRun(w, d, events, vault);
    var w' := Run(w, d, events);
    assert EntryCarries(w', id, vault);
    assert LineCarries(w'.services, id, r, vault);
    assert r.keyId in EntryKeys(w'.store[id]);
    assert r.keyId in Held(w');
  }

  /** After a pass that reports success, the stored proxy runs what the target asks for, the
      order of its ports aside. */
  lemma ProxyServesTarget(w: World, id: string, tgt: Target, cfg: Config, a: IngressAnswers, vault: Vault)
    requires Truthful(w, vault) && Issued(vault, a.key) && tgt.ingress && IngressPass(w, id, tgt, cfg, a).ok
    ensures var w' := IngressPass(w, id, tgt, cfg, a).w;
            var e := EntryOf(w', id);
            && e.proxy.Some? && e.proxy.value in w'.launched
            && var l := w'.launched[e.proxy.value];
               && l.config.hostname == tgt.hostname && l.config.target == tgt.serviceName
               && l.config.stateDir == cfg.stateDir && l.config.loginURL == cfg.loginURL
               && multiset(l.config.ports) == multiset(tgt.ports) && multiset(l.config.tags) == multiset{tgt.tag}
               && l.authKey == vault(e.preAuthKey)
  {
    hide HashOf;
    hide IngressPass;
    hide EntryCarries;
    var w' := IngressPass(w, id, tgt, cfg, a).w;
    StartExact(w, id, tgt, cfg, a);
    IngressTruthful(w, id, tgt, cfg, a, vault);
    assert ProxyCarries(w', id, vault);
    ViewOf(EntryOf(w', id));
    ViewOf(EntryOf(w, id));
    var e := EntryOf(w', id);
    var config := ProxyConfig(tgt.hostname, tgt.serviceName, tgt.ports, cfg.stateDir, cfg.loginURL, [tgt.tag]);
    HashOfIff(w'.launched[e.proxy.value].config, config);
  }
}
