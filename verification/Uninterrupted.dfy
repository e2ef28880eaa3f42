/** Run without interruption, the program of a pass does what Reconcile does. */
module Uninterrupted {
  import opened Text
  import opened Targets
  import opened Gateway
  import opened Labels
  import opened World
  import opened Egress
  import opened Reconcile
  import opened Calls

  /** At most `n` calls of the program. */
  function Steps(w: World, p: Prog, n: nat): (World, Prog)
    decreases n
  {
    if n == 0 || p.Done? then (w, p)
    else var (w', r) := Perform(w, p.call); Steps(w', p.next(r), n - 1)
  }

  ghost predicate Leads(w: World, p: Prog, w': World, p': Prog) { exists n: nat :: Steps(w, p, n) == (w', p') }

  lemma LeadsSelf(w: World, p: Prog)
    ensures Leads(w, p, w, p)
  {
    assert Steps(w, p, 0) == (w, p);
  }

  /** One call, then whatever follows. */
  lemma After(w: World, p: Prog, w': World, p': Prog)
    requires p.Do? && Leads(Perform(w, p.call).0, p.next(Perform(w, p.call).1), w', p')
    ensures Leads(w, p, w', p')
  {
    hide Perform;
    var n: nat :| Steps(Perform(w, p.call).0, p.next(Perform(w, p.call).1), n) == (w', p');
    assert Steps(w, p, n + 1) == (w', p');
  }

  lemma {:induction false} StepsMore(w: World, p: Prog, n: nat, m: nat)
    ensures Steps(w, p, n + m) == var (w1, p1) := Steps(w, p, n); Steps(w1, p1, m)
    decreases n
  {
    hide Perform;
    if n > 0 && p.Do? {
      var (w', r) := Perform(w, p.call);
      StepsMore(w', p.next(r), n - 1, m);
    } else if n > 0 {
      assert Steps(w, p, m) == (w, p);
    }
  }

  lemma LeadsOn(w: World, p: Prog, w1: World, p1: Prog, w2: World, p2: Prog)
    requires Leads(w, p, w1, p1) && Leads(w1, p1, w2, p2)
    ensures Leads(w, p, w2, p2)
  {
    var n: nat :| Steps(w, p, n) == (w1, p1);
    var m: nat :| Steps(w1, p1, m) == (w2, p2);
    StepsMore(w, p, n, m);
  }

  // ---------- single gateways ----------

  lemma RemoveGatewayRuns(w: World, ref: GatewayRef, a: RemoveAnswers, k: bool -> Prog)
    ensures var (w', ok) := RemoveGateway(w, ref, a); Leads(w, RemoveGatewayProg(ref, a, k), w', k(ok))
  {
    hide Leads;
    var p := RemoveGatewayProg(ref, a, k);
    var (w', ok) := RemoveGateway(w, ref, a);
    LeadsSelf(w', k(ok));
    if a.wait {
      var w1 := RemoveService(w, ref.serviceId, a.removed).0;
      if a.removed && ref.keyId != "" && a.waitExpire {
        After(w1, Do(ExpireKey(ref.keyId), (_: Reply) => k(true)), w', k(ok));
      }
      After(w, p, w', k(ok));
    }
  }

  lemma ExpireRuns(w: World, key: string, k: Prog)
    ensures Leads(w, Do(ExpireKey(key), (_: Reply) => k), Expire(w, key), k)
  {
    hide Leads;
    LeadsSelf(Expire(w, key), k);
    After(w, Do(ExpireKey(key), (_: Reply) => k), Expire(w, key), k);
  }

  lemma AdoptRuns(w: World, job: Job, t: EgressTarget, key: Key, a: CreateAnswers, pick: Picker, k: Option<GatewayRef> -> Prog)
    ensures var (w', r) := AdoptExisting(w, job, t, key, a, pick); Leads(w, AdoptProg(job, t, key, a, pick, k), w', k(r))
  {
    hide Leads;
    hide WantSpec;
    hide WantHash;
    hide Addr;
    hide UpdateService;
    hide Expire;
    var p := AdoptProg(job, t, key, a, pick, k);
    var (w', r) := AdoptExisting(w, job, t, key, a, pick);
    var spec := WantSpec(job, t, key.secret);
    var holders := Named(w, spec.name);
    var v := Perform(w, ListNamed(spec.name)).1.v;
    assert v.Keys == holders;
    if a.lookup != LookupHit || holders == {} {
      assert v == map[] <==> holders == {};
      ExpireRuns(w, key.id, k(None));
    } else {
      var existing := pick(holders);
      var (w1, updated) := UpdateService(w, existing, w.services[existing].version, spec, a.update);
      var q := p.next(Found(v));
      assert v != map[] by { assert existing in v; }
      assert q.call == Update(existing, w.services[existing].version, spec, a.update);
      if updated {
        LeadsSelf(w', k(r));
      } else {
        ExpireRuns(w1, key.id, k(None));
      }
      After(w, q, w', k(r));
    }
    After(w, p, w', k(r));
  }

  lemma CreateRuns(w: World, job: Job, t: EgressTarget, a: CreateAnswers, pick: Picker, k: Option<GatewayRef> -> Prog)
    ensures var (w', r) := CreateGateway(w, job, t, a, pick); Leads(w, CreateProg(job, t, a, pick, k), w', k(r))
  {
    hide Leads;
    hide WantSpec;
    hide WantHash;
    hide Addr;
    hide Named;
    hide AdoptExisting;
    hide AdoptProg;
    hide CreateService;
    var p := CreateProg(job, t, a, pick, k);
    var (w', r) := CreateGateway(w, job, t, a, pick);
    if !a.wait {
      LeadsSelf(w, k(None));
    } else {
      var (w1, key) := Mint(w, a.key);
      if key.None? {
        LeadsSelf(w1, k(None));
      } else {
        var (w2, c) := CreateService(w1, WantSpec(job, t, key.value.secret), a.id);
        var q := p.next(Minted(key));
        match c {
          case Exists => AdoptRuns(w2, job, t, key.value, a, pick, k);
          case CreateFailed => ExpireRuns(w2, key.value.id, k(None));
          case Created(_) => LeadsSelf(w2, k(r));
        }
        After(w1, q, w', k(r));
      }
      After(w, p, w', k(r));
    }
  }

  lemma UpdateRuns(w: World, job: Job, t: EgressTarget, ref: GatewayRef, a: UpdateAnswers, k: Updated -> Prog)
    ensures var (w', r) := UpdateGateway(w, job, t, ref, a); Leads(w, UpdateProg(job, t, ref, a, k), w', k(r))
  {
    hide Leads;
    hide WantSpec;
    hide WantHash;
    hide Addr;
    hide UpdateService;
    var p := UpdateProg(job, t, ref, a, k);
    var (w', r) := UpdateGateway(w, job, t, ref, a);
    if !a.inspect {
      LeadsSelf(w, k(r));
    } else {
      var v := Perform(w, Inspect(ref.serviceId)).1.v;
      var q := p.next(Found(v));
      if ref.serviceId !in w.services || !a.wait {
        LeadsSelf(w, k(r));
      } else {
        var (w1, key) := Mint(w, a.key);
        if key.None? {
          LeadsSelf(w1, k(r));
        } else {
          var (w2, ok) := UpdateService(w1, ref.serviceId, w.services[ref.serviceId].version, WantSpec(job, t, key.value.secret), a.update);
          var q2 := q.next(Minted(key));
          assert q2.call == Update(ref.serviceId, w.services[ref.serviceId].version, WantSpec(job, t, key.value.secret), a.update);
          if !ok {
            ExpireRuns(w2, key.value.id, k(UpdateFailed));
          } else if ref.keyId != key.value.id {
            ExpireRuns(w2, ref.keyId, k(r));
          } else {
            LeadsSelf(w2, k(r));
          }
          After(w1, q2, w', k(r));
        }
        After(w, q, w', k(r));
      }
      After(w, p, w', k(r));
    }
  }

  // ---------- the loops ----------

  lemma {:induction false} RemoveLoopRuns(p: Pass, keep: set<string>, todo: set<string>, ans: Answers, k: (Refs, bool) -> Prog)
    requires todo <= p.tracked.Keys
    ensures var p' := RemoveLoop(p, keep, todo, ans);
            Leads(p.w, RemoveLoopProg(p.tracked, p.ok, keep, todo, ans, k), p'.w, k(p'.tracked, p'.ok))
    decreases todo
  {
    hide Leads;
    hide RemoveGateway;
    hide RemoveGatewayProg;
    var p' := RemoveLoop(p, keep, todo, ans);
    if todo == {} {
      LeadsSelf(p.w, k(p.tracked, p.ok));
    } else {
      var addr := ans.pick(todo);
      if addr in keep {
        RemoveLoopRuns(p, keep, todo - {addr}, ans, k);
      } else {
        var p1 := RemoveOne(p, addr, ans.remove(addr));
        var rest := (done: bool) =>
          RemoveLoopProg(if done then p.tracked - {addr} else p.tracked, p.ok && done, keep, todo - {addr}, ans, k);
        RemoveGatewayRuns(p.w, p.tracked[addr], ans.remove(addr), rest);
        RemoveLoopRuns(p1, keep, todo - {addr}, ans, k);
        var done := RemoveGateway(p.w, p.tracked[addr], ans.remove(addr)).1;
        assert rest(done) == RemoveLoopProg(p1.tracked, p1.ok, keep, todo - {addr}, ans, k);
        LeadsOn(p.w, RemoveLoopProg(p.tracked, p.ok, keep, todo, ans, k), p1.w, rest(done), p'.w, k(p'.tracked, p'.ok));
      }
    }
  }

  lemma CreateIntoRuns(p: Pass, job: Job, t: EgressTarget, a: CreateAnswers, pick: Picker, k: (Refs, bool) -> Prog)
    ensures var p' := CreateInto(p, job, t, a, pick);
            Leads(p.w, CreateIntoProg(p.tracked, p.ok, job, t, a, pick, k), p'.w, k(p'.tracked, p'.ok))
  {
    hide Leads;
    hide CreateGateway;
    hide CreateProg;
    hide Addr;
    var rest := (r: Option<GatewayRef>) =>
      if r.None? then k(p.tracked, false) else k(p.tracked[Addr(t) := r.value], p.ok);
    CreateRuns(p.w, job, t, a, pick, rest);
  }

  lemma PutOneRuns(p: Pass, job: Job, t: EgressTarget, a: PutAnswers, pick: Picker, k: (Refs, bool) -> Prog)
    ensures var p' := PutOne(p, job, t, a, pick);
            Leads(p.w, PutOneProg(p.tracked, p.ok, job, t, a, pick, k), p'.w, k(p'.tracked, p'.ok))
  {
    hide Leads;
    hide CreateInto;
    hide CreateIntoProg;
    hide UpdateGateway;
    hide UpdateProg;
    hide WantHash;
    hide Addr;
    var addr := Addr(t);
    var p' := PutOne(p, job, t, a, pick);
    if addr !in p.tracked {
      CreateIntoRuns(p, job, t, a.create, pick, k);
    } else if p.tracked[addr].hash == WantHash(job, t) {
      LeadsSelf(p.w, k(p.tracked, p.ok));
    } else {
      var (w1, u) := UpdateGateway(p.w, job, t, p.tracked[addr], a.update);
      var rest := (u: Updated) =>
        match u
        case UpdateFailed => k(p.tracked - {addr}, false)
        case Vanished => CreateIntoProg(p.tracked - {addr}, p.ok, job, t, a.create, pick, k)
        case Updated(ref) => k(p.tracked[addr := ref], p.ok);
      UpdateRuns(p.w, job, t, p.tracked[addr], a.update, rest);
      if u.Vanished? {
        CreateIntoRuns(Pass(w1, p.tracked - {addr}, p.ok), job, t, a.create, pick, k);
        LeadsOn(p.w, PutOneProg(p.tracked, p.ok, job, t, a, pick, k), w1, rest(u), p'.w, k(p'.tracked, p'.ok));
      }
    }
  }

  lemma {:induction false} PutLoopRuns(p: Pass, job: Job, desired: map<string, EgressTarget>, todo: set<string>, ans: Answers, k: (Refs, bool) -> Prog)
    requires todo <= desired.Keys
    ensures var p' := PutLoop(p, job, desired, todo, ans);
            Leads(p.w, PutLoopProg(p.tracked, p.ok, job, desired, todo, ans, k), p'.w, k(p'.tracked, p'.ok))
    decreases todo
  {
    hide Leads;
    hide PutOne;
    hide PutOneProg;
    var p' := PutLoop(p, job, desired, todo, ans);
    if todo == {} {
      LeadsSelf(p.w, k(p.tracked, p.ok));
    } else {
      var addr := ans.pick(todo);
      var p1 := PutOne(p, job, desired[addr], ans.put(addr), ans.pick);
      var rest := (tracked': Refs, ok': bool) => PutLoopProg(tracked', ok', job, desired, todo - {addr}, ans, k);
      PutOneRuns(p, job, desired[addr], ans.put(addr), ans.pick, rest);
      PutLoopRuns(p1, job, desired, todo - {addr}, ans, k);
      LeadsOn(p.w, PutLoopProg(p.tracked, p.ok, job, desired, todo, ans, k), p1.w, rest(p1.tracked, p1.ok), p'.w, k(p'.tracked, p'.ok));
    }
  }

  // ---------- egress ----------

  lemma {:induction false} AdoptFrom(w: World, u: World, out: Refs, known: set<string>, todo: set<string>, pick: Picker)
    requires todo <= w.services.Keys && todo <= u.services.Keys && forall s :: s in todo ==> w.services[s] == u.services[s]
    ensures Adopt(w, out, known, todo, pick) == Adopt(u, out, known, todo, pick)
    decreases todo
  {
    hide TargetAddr;
    hide LiveHash;
    if todo != {} {
      var s := pick(todo);
      var addr := TargetAddr(w.services[s].spec);
      var out' :=
        if s in known || addr == "" || addr in out then out
        else out[addr := GatewayRef(addr, s, "", LiveHash(w.services[s].spec))];
      AdoptFrom(w, u, out', known, todo - {s}, pick);
    }
  }

  lemma TrackedFrom(w: World, app: string, pick: Picker)
    ensures TrackedIn(EntryOf(w, app), Perform(w, ListMarked(app)).1.v, pick) == Tracked(w, app, pick)
  {
    hide MarkedFor;
    hide StoreIndex;
    hide Adopt;
    var v := Perform(w, ListMarked(app)).1.v;
    var out := StoreIndex(EntryOf(w, app).gateways);
    assert v.Keys == Gateways(w, app);
    AdoptFrom(w, NOWHERE.(services := v), out, KnownServices(out), v.Keys, pick);
  }

  lemma DiffRuns(w: World, job: Job, tracked: Refs, ans: Answers, k: bool -> Prog)
    ensures var prev := EntryOf(w, job.app);
            var r := if FastGate(job, prev, tracked, Desired(job.eg.targets)) then Step(Put(w, job.app, prev), true)
                     else SlowPath(w, job, tracked, ans);
            Leads(w, DiffProg(job, prev, tracked, ans, k), r.w, k(r.ok))
  {
    hide Leads;
    hide FastGate;
    hide RemoveLoop;
    hide PutLoop;
    hide RemoveLoopProg;
    hide PutLoopProg;
    hide SortedGateways;
    hide WholeHash;
    hide Desired;
    var prev := EntryOf(w, job.app);
    var desired := Desired(job.eg.targets);
    var prog := DiffProg(job, prev, tracked, ans, k);
    if FastGate(job, prev, tracked, desired) {
      LeadsSelf(Put(w, job.app, prev), k(true));
      After(w, prog, Put(w, job.app, prev), k(true));
    } else {
      var r := SlowPath(w, job, tracked, ans);
      var last := (tracked2: Refs, ok2: bool) => RecordProg(job, prev, tracked2, ok2, ans, k);
      var rest := (tracked1: Refs, ok1: bool) => PutLoopProg(tracked1, ok1, job, desired, desired.Keys, ans, last);
      var p1 := RemoveLoop(Pass(w, tracked, true), desired.Keys, tracked.Keys, ans);
      var p2 := PutLoop(p1, job, desired, desired.Keys, ans);
      RemoveLoopRuns(Pass(w, tracked, true), desired.Keys, tracked.Keys, ans, rest);
      PutLoopRuns(p1, job, desired, desired.Keys, ans, last);
      LeadsOn(w, prog, p1.w, rest(p1.tracked, p1.ok), p2.w, last(p2.tracked, p2.ok));
      LeadsSelf(r.w, k(r.ok));
      After(p2.w, last(p2.tracked, p2.ok), r.w, k(r.ok));
      LeadsOn(w, prog, p2.w, last(p2.tracked, p2.ok), r.w, k(r.ok));
    }
  }

  lemma EgressRuns(w: World, job: Job, ans: Answers, k: bool -> Prog)
    ensures var r := EgressPass(w, job, ans); Leads(w, EgressProg(job, ans, k), r.w, k(r.ok))
  {
    hide Leads;
    hide FastGate;
    hide SlowPath;
    hide Tracked;
    hide TrackedIn;
    hide DiffProg;
    hide Desired;
    hide MarkedFor;
    var r := EgressPass(w, job, ans);
    var p := EgressProg(job, ans, k);
    if job.image == "" {
      LeadsSelf(w, k(false));
    } else {
      var prev := EntryOf(w, job.app);
      var q := p.next(Stored(prev));
      if !ans.list {
        LeadsSelf(w, k(false));
      } else {
        TrackedFrom(w, job.app, ans.pick);
        DiffRuns(w, job, Tracked(w, job.app, ans.pick), ans, k);
        assert q.call == ListMarked(job.app);
        After(w, q, r.w, k(r.ok));
      }
      After(w, p, r.w, k(r.ok));
    }
  }

  // ---------- ingress and teardown ----------

  lemma {:induction false} RemoveAllRuns(w: World, refs: seq<GatewayRef>, remove: string -> RemoveAnswers, ok: bool, k: bool -> Prog)
    ensures var r := RemoveAll(w, refs, remove); Leads(w, RemoveAllProg(refs, remove, ok, k), r.w, k(ok && r.ok))
    decreases refs
  {
    hide Leads;
    hide RemoveGateway;
    hide RemoveGatewayProg;
    var r := RemoveAll(w, refs, remove);
    if refs == [] {
      LeadsSelf(w, k(ok));
    } else {
      var (w1, done) := RemoveGateway(w, refs[0], remove(refs[0].target));
      var rest := (done: bool) => RemoveAllProg(refs[1..], remove, ok && done, k);
      RemoveGatewayRuns(w, refs[0], remove(refs[0].target), rest);
      RemoveAllRuns(w1, refs[1..], remove, ok && done, k);
      LeadsOn(w, RemoveAllProg(refs, remove, ok, k), w1, rest(done), r.w, k(ok && r.ok));
    }
  }

  lemma StoreRuns(w: World, id: string, drop: bool, e: Entry, k: Prog)
    ensures Leads(w, StoreProg(id, drop, e, k), if drop then Delete(w, id) else Put(w, id, e), k)
  {
    hide Leads;
    var w' := if drop then Delete(w, id) else Put(w, id, e);
    LeadsSelf(w', k);
    After(w, StoreProg(id, drop, e, k), w', k);
  }

  lemma TeardownEgressRuns(w: World, app: string, remove: string -> RemoveAnswers, k: bool -> Prog)
    ensures var r := TeardownEgress(w, app, remove); Leads(w, TeardownEgressProg(app, remove, k), r.w, k(r.ok))
  {
    hide Leads;
    hide RemoveAll;
    hide RemoveAllProg;
    hide StoreProg;
    var r := TeardownEgress(w, app, remove);
    var prev := EntryOf(w, app);
    var p := TeardownEgressProg(app, remove, k);
    if prev.gateways == [] {
      LeadsSelf(w, k(true));
    } else {
      var s := RemoveAll(w, prev.gateways, remove);
      var next := prev.(gateways := [], gatewayHash := NoSetHash);
      var rest := EgressGone(app, prev, k);
      RemoveAllRuns(w, prev.gateways, remove, true, rest);
      StoreRuns(s.w, app, prev.proxy.None?, next, k(s.ok));
      LeadsOn(w, p.next(Stored(prev)), s.w, rest(s.ok), r.w, k(r.ok));
    }
    After(w, p, r.w, k(r.ok));
  }

  lemma ClosedRuns(w: World, proxy: Option<nat>, k: Prog)
    ensures Leads(w, ClosedProg(proxy, k), if proxy.Some? then CloseProxy(w, proxy.value) else w, k)
  {
    hide Leads;
    var w' := if proxy.Some? then CloseProxy(w, proxy.value) else w;
    LeadsSelf(w', k);
    if proxy.Some? {
      After(w, ClosedProg(proxy, k), w', k);
    }
  }

  lemma TeardownIngressRuns(w: World, id: string, a: IngressAnswers, k: bool -> Prog)
    ensures var r := TeardownIngress(w, id, a); Leads(w, TeardownIngressProg(id, a, k), r.w, k(r.ok))
  {
    hide Leads;
    hide ClosedProg;
    hide StoreProg;
    var r := TeardownIngress(w, id, a);
    var prev := EntryOf(w, id);
    var p := TeardownIngressProg(id, a, k);
    if prev.proxy.None? && prev.preAuthKey == "" {
      LeadsSelf(w, k(true));
    } else {
      var w1 := if prev.proxy.Some? then CloseProxy(w, prev.proxy.value) else w;
      var store := StoreProg(id, prev.gateways == [], prev.(proxy := None, specHash := NoProxyHash, preAuthKey := ""), k(r.ok));
      var rest := IngressGone(id, prev, a, k);
      if prev.preAuthKey != "" && !a.wait {
        LeadsSelf(w1, k(false));
      } else {
        var w2 := Expire(w1, prev.preAuthKey);
        ExpireRuns(w1, prev.preAuthKey, store);
        StoreRuns(w2, id, prev.gateways == [], prev.(proxy := None, specHash := NoProxyHash, preAuthKey := ""), k(r.ok));
        LeadsOn(w1, rest, w2, store, r.w, k(r.ok));
      }
      ClosedRuns(w, prev.proxy, rest);
      LeadsOn(w, p.next(Stored(prev)), w1, rest, r.w, k(r.ok));
    }
    After(w, p, r.w, k(r.ok));
  }

  lemma RotateRuns(w: World, id: string, prev: Entry, config: ProxyConfig, a: IngressAnswers, k: bool -> Prog)
    ensures var r := Rotate(w, id, prev, config, a); Leads(w, RotateProg(id, prev, config, a, k), r.w, k(r.ok))
  {
    hide Leads;
    hide ClosedProg;
    hide HashOf;
    var p := RotateProg(id, prev, config, a, k);
    var r := Rotate(w, id, prev, config, a);
    var (w1, key) := Mint(w, a.key);
    if key.None? {
      LeadsSelf(w1, k(false));
    } else {
      var q := p.next(Minted(key));
      var (w2, proxy) := StartProxy(w1, Launch(config, key.value.secret), a.start);
      if proxy.None? {
        ExpireRuns(w2, key.value.id, k(false));
      } else {
        var w3 := Put(w2, id, prev.(proxy := proxy, specHash := HashOf(config), preAuthKey := key.value.id));
        RetireRuns(w3, prev, k(true));
        After(w2, q.next(Started(proxy)), r.w, k(true));
      }
      After(w1, q, r.w, k(r.ok));
    }
    After(w, p, r.w, k(r.ok));
  }

  lemma RetireRuns(w: World, prev: Entry, k: Prog)
    ensures Leads(w, ClosedProg(prev.proxy, if prev.proxy.None? then k else Do(ExpireKey(prev.preAuthKey), (_: Reply) => k)), Retire(w, prev), k)
  {
    hide Leads;
    hide ClosedProg;
    var rest := if prev.proxy.None? then k else Do(ExpireKey(prev.preAuthKey), (_: Reply) => k);
    var w' := if prev.proxy.Some? then CloseProxy(w, prev.proxy.value) else w;
    ClosedRuns(w, prev.proxy, rest);
    if prev.proxy.Some? {
      ExpireRuns(w', prev.preAuthKey, k);
    } else {
      LeadsSelf(w', k);
    }
    LeadsOn(w, ClosedProg(prev.proxy, rest), w', rest, Retire(w, prev), k);
  }

  lemma IngressRuns(w: World, id: string, tgt: Target, cfg: Config, a: IngressAnswers, k: bool -> Prog)
    ensures var r := IngressPass(w, id, tgt, cfg, a); Leads(w, IngressProg(id, tgt, cfg, a, k), r.w, k(r.ok))
  {
    hide Leads;
    hide HashOf;
    hide TeardownIngress;
    hide TeardownIngressProg;
    hide Rotate;
    hide RotateProg;
    var r := IngressPass(w, id, tgt, cfg, a);
    var p := IngressProg(id, tgt, cfg, a, k);
    if !tgt.ingress {
      TeardownIngressRuns(w, id, a, k);
    } else {
      var prev := EntryOf(w, id);
      var hash := HashOf(ProxyConfigFor(tgt, cfg));
      var q := p.next(Stored(prev));
      if prev.specHash == hash && prev.proxy.Some? {
        LeadsSelf(r.w, k(true));
        After(w, q, r.w, k(true));
      } else if !a.wait {
        LeadsSelf(w, k(false));
      } else {
        RotateRuns(w, id, prev, ProxyConfigFor(tgt, cfg), a, k);
      }
      After(w, p, r.w, k(r.ok));
    }
  }

  // ---------- the whole pass ----------

  lemma TeardownRuns(w: World, id: string, s: Script, k: bool -> Prog)
    ensures var r := Teardown(w, id, s); Leads(w, TeardownProg(id, s, k), r.w, k(r.ok))
  {
    hide Leads;
    hide TeardownIngress;
    hide TeardownEgress;
    hide TeardownIngressProg;
    hide TeardownEgressProg;
    var r := Teardown(w, id, s);
    var ing := TeardownIngress(w, id, s.ingress);
    var egr := TeardownEgress(ing.w, id, s.egress.remove);
    var last := (ok2: bool) => Do(DropEntry(id), (_: Reply) => k(ing.ok && ok2));
    var rest := (ok1: bool) => TeardownEgressProg(id, s.egress.remove, (ok2: bool) => Do(DropEntry(id), (_: Reply) => k(ok1 && ok2)));
    TeardownIngressRuns(w, id, s.ingress, rest);
    TeardownEgressRuns(ing.w, id, s.egress.remove, last);
    LeadsOn(w, TeardownProg(id, s, k), ing.w, rest(ing.ok), egr.w, last(egr.ok));
    LeadsSelf(r.w, k(r.ok));
    After(egr.w, last(egr.ok), r.w, k(r.ok));
    LeadsOn(w, TeardownProg(id, s, k), egr.w, last(egr.ok), r.w, k(r.ok));
  }

  lemma BothRun(w: World, d: Daemon, id: string, tgt: Target, s: Script)
    ensures var ing := IngressPass(w, id, tgt, d.cfg, s.ingress);
            var egr := EgressStep(ing.w, d, id, tgt, s.egress);
            Leads(w, IngressProg(id, tgt, d.cfg, s.ingress, (ok1: bool) =>
                       EgressStepProg(d, id, tgt, s.egress, (ok2: bool) => Done(ok1 && ok2))),
                  egr.w, Done(ing.ok && egr.ok))
  {
    hide Leads;
    hide IngressPass;
    hide IngressProg;
    hide EgressPass;
    hide EgressProg;
    hide TeardownEgress;
    hide TeardownEgressProg;
    var ing := IngressPass(w, id, tgt, d.cfg, s.ingress);
    var egr := EgressStep(ing.w, d, id, tgt, s.egress);
    var rest := (ok1: bool) => EgressStepProg(d, id, tgt, s.egress, (ok2: bool) => Done(ok1 && ok2));
    var last := (ok2: bool) => Done(ing.ok && ok2);
    IngressRuns(w, id, tgt, d.cfg, s.ingress, rest);
    if tgt.egress.None? {
      TeardownEgressRuns(ing.w, id, s.egress.remove, last);
    } else {
      EgressRuns(ing.w, Job(d.cfg, id, tgt.egress.value, d.image), s.egress, last);
    }
    LeadsOn(w, IngressProg(id, tgt, d.cfg, s.ingress, rest), ing.w, rest(ing.ok), egr.w, last(egr.ok));
  }

  /** The program of a pass, uninterrupted, is the pass. */
  lemma ReconcileRuns(w: World, d: Daemon, id: string, s: Script)
    ensures var r := ReconcileService(w, d, id, s); Leads(w, ReconcileProg(d, id, s), r.w, Done(r.ok))
  {
    hide Leads;
    hide ParseLabels;
    hide IsGateway;
    hide Teardown;
    hide TeardownProg;
    hide IngressPass;
    hide IngressProg;
    hide EgressStep;
    hide EgressStepProg;
    var r := ReconcileService(w, d, id, s);
    var p := ReconcileProg(d, id, s);
    if !s.inspect {
      LeadsSelf(w, Done(false));
    } else {
      var v := Perform(w, Inspect(id)).1.v;
      assert id in v <==> id in w.services;
      TeardownRuns(w, id, s, (ok: bool) => Done(ok));
      TeardownRuns(w, id, s, (ok: bool) => Done(false));
      LeadsSelf(w, Done(r.ok));
      if id in w.services && !IsGateway(w.services[id].spec) && s.networks.Some? {
        var o := ParseLabels(d.rules, w.services[id].spec, s.networks.value);
        if o.Enabled? {
          BothRun(w, d, id, o.target, s);
        }
      }
      assert Leads(w, InspectedProg(d, id, s, v), r.w, Done(r.ok));
      After(w, p, r.w, Done(r.ok));
    }
  }
}
