/** reconcileEgress reads the cluster, the taken key IDs and the gateway half of its own
    entry, and nothing else of the world. */
module Congruence {
  import opened Text
  import opened Targets
  import opened Gateway
  import opened World
  import opened Egress
  import opened Mirror
  import opened Convergence

  /** Same cluster, same taken keys. */
  predicate SameOutside(w: World, u: World) {
    w.services == u.services && w.ids == u.ids && w.made == u.made && w.minted == u.minted
  }

  predicate SamePass(p: Pass, q: Pass) { SameOutside(p.w, q.w) && p.tracked == q.tracked && p.ok == q.ok }

  lemma SameUpdateService(w: World, u: World, id: string, version: nat, spec: ServiceSpec, answer: bool)
    requires SameOutside(w, u)
    ensures SameOutside(UpdateService(w, id, version, spec, answer).0, UpdateService(u, id, version, spec, answer).0)
    ensures UpdateService(w, id, version, spec, answer).1 == UpdateService(u, id, version, spec, answer).1
  {
    hide Named;
    SameNamed(w, u, spec.name);
  }

  lemma SameCreateService(w: World, u: World, spec: ServiceSpec, answer: Option<string>)
    requires SameOutside(w, u)
    ensures SameOutside(CreateService(w, spec, answer).0, CreateService(u, spec, answer).0)
    ensures CreateService(w, spec, answer).1 == CreateService(u, spec, answer).1
  {
    hide Named;
    SameNamed(w, u, spec.name);
  }

  lemma SameRemove(w: World, u: World, ref: GatewayRef, a: RemoveAnswers)
    requires SameOutside(w, u)
    ensures SameOutside(RemoveGateway(w, ref, a).0, RemoveGateway(u, ref, a).0)
    ensures RemoveGateway(w, ref, a).1 == RemoveGateway(u, ref, a).1
  {
  }

  lemma SameAdopt(w: World, u: World, job: Job, t: EgressTarget, key: Key, a: CreateAnswers, pick: Picker)
    requires SameOutside(w, u)
    ensures SameOutside(AdoptExisting(w, job, t, key, a, pick).0, AdoptExisting(u, job, t, key, a, pick).0)
    ensures AdoptExisting(w, job, t, key, a, pick).1 == AdoptExisting(u, job, t, key, a, pick).1
  {
    hide WantSpec;
    hide WantHash;
    hide Addr;
    hide Named;
    hide UpdateService;
    var spec := WantSpec(job, t, key.secret);
    SameNamed(w, u, spec.name);
    if Named(w, spec.name) != {} {
      var existing := pick(Named(w, spec.name));
      NamedRun(w, spec.name);
      SameUpdateService(w, u, existing, w.services[existing].version, spec, a.update);
    }
  }

  lemma NamedRun(w: World, name: string)
    ensures Named(w, name) <= w.services.Keys
  {
  }

  lemma SameCreate(w: World, u: World, job: Job, t: EgressTarget, a: CreateAnswers, pick: Picker)
    requires SameOutside(w, u)
    ensures SameOutside(CreateGateway(w, job, t, a, pick).0, CreateGateway(u, job, t, a, pick).0)
    ensures CreateGateway(w, job, t, a, pick).1 == CreateGateway(u, job, t, a, pick).1
  {
    hide WantSpec;
    hide WantHash;
    hide Addr;
    hide Named;
    hide AdoptExisting;
    hide CreateService;
    if a.wait {
      var (w1, key) := Mint(w, a.key);
      var (u1, _) := Mint(u, a.key);
      if key.Some? {
        var spec := WantSpec(job, t, key.value.secret);
        SameCreateService(w1, u1, spec, a.id);
        SameAdopt(CreateService(w1, spec, a.id).0, CreateService(u1, spec, a.id).0, job, t, key.value, a, pick);
      }
    }
  }

  lemma SameUpdate(w: World, u: World, job: Job, t: EgressTarget, ref: GatewayRef, a: UpdateAnswers)
    requires SameOutside(w, u)
    ensures SameOutside(UpdateGateway(w, job, t, ref, a).0, UpdateGateway(u, job, t, ref, a).0)
    ensures UpdateGateway(w, job, t, ref, a).1 == UpdateGateway(u, job, t, ref, a).1
  {
    hide WantSpec;
    hide WantHash;
    hide Addr;
    hide UpdateService;
    if a.inspect && a.wait && ref.serviceId in w.services {
      var (w1, key) := Mint(w, a.key);
      var (u1, _) := Mint(u, a.key);
      if key.Some? {
        SameUpdateService(w1, u1, ref.serviceId, w.services[ref.serviceId].version, WantSpec(job, t, key.value.secret), a.update);
      }
    }
  }

  lemma SamePutOne(p: Pass, q: Pass, job: Job, t: EgressTarget, a: PutAnswers, pick: Picker)
    requires SamePass(p, q)
    ensures SamePass(PutOne(p, job, t, a, pick), PutOne(q, job, t, a, pick))
  {
    hide WantHash;
    hide Addr;
    hide CreateGateway;
    hide UpdateGateway;
    SameCreate(p.w, q.w, job, t, a.create, pick);
    if Addr(t) in p.tracked {
      SameUpdate(p.w, q.w, job, t, p.tracked[Addr(t)], a.update);
      SameCreate(UpdateGateway(p.w, job, t, p.tracked[Addr(t)], a.update).0,
                 UpdateGateway(q.w, job, t, p.tracked[Addr(t)], a.update).0, job, t, a.create, pick);
    }
  }

  lemma {:induction false} SameRemoveLoop(p: Pass, q: Pass, keep: set<string>, todo: set<string>, ans: Answers)
    requires SamePass(p, q) && todo <= p.tracked.Keys
    ensures SamePass(RemoveLoop(p, keep, todo, ans), RemoveLoop(q, keep, todo, ans))
    decreases todo
  {
    hide RemoveGateway;
    if todo != {} {
      var addr := ans.pick(todo);
      if addr in keep {
        SameRemoveLoop(p, q, keep, todo - {addr}, ans);
      } else {
        SameRemove(p.w, q.w, p.tracked[addr], ans.remove(addr));
        SameRemoveLoop(RemoveOne(p, addr, ans.remove(addr)), RemoveOne(q, addr, ans.remove(addr)), keep, todo - {addr}, ans);
      }
    }
  }

  lemma {:induction false} SamePutLoop(p: Pass, q: Pass, job: Job, desired: map<string, EgressTarget>, todo: set<string>, ans: Answers)
    requires SamePass(p, q) && todo <= desired.Keys
    ensures SamePass(PutLoop(p, job, desired, todo, ans), PutLoop(q, job, desired, todo, ans))
    decreases todo
  {
    hide PutOne;
    hide SamePass;
    if todo != {} {
      var addr := ans.pick(todo);
      SamePutOne(p, q, job, desired[addr], ans.put(addr), ans.pick);
      SamePutLoop(PutOne(p, job, desired[addr], ans.put(addr), ans.pick), PutOne(q, job, desired[addr], ans.put(addr), ans.pick),
                  job, desired, todo - {addr}, ans);
    }
  }

  lemma {:induction false} SameStranded(p: Pass, q: Pass, job: Job, todo: set<string>, ans: Answers)
    requires SamePass(p, q) && todo <= Wanted(job).Keys
    ensures Stranded(p, job, todo, ans) == Stranded(q, job, todo, ans)
    decreases todo
  {
    hide PutOne;
    hide WantHash;
    hide Addr;
    hide UpdateGateway;
    hide Wanted;
    if todo != {} {
      var addr := ans.pick(todo);
      var t := Wanted(job)[addr];
      if Addr(t) in p.tracked {
        SameUpdate(p.w, q.w, job, t, p.tracked[Addr(t)], ans.put(addr).update);
      }
      SamePutOne(p, q, job, t, ans.put(addr), ans.pick);
      SameStranded(PutOne(p, job, t, ans.put(addr), ans.pick), PutOne(q, job, t, ans.put(addr), ans.pick), job, todo - {addr}, ans);
    }
  }

  lemma {:induction false} SameAdoptLoop(w: World, u: World, out: map<string, GatewayRef>, known: set<string>, todo: set<string>, pick: Picker)
    requires w.services == u.services && todo <= w.services.Keys
    ensures Adopt(w, out, known, todo, pick) == Adopt(u, out, known, todo, pick)
    decreases todo
  {
    hide TargetAddr;
    hide LiveHash;
    if todo != {} {
      var s := pick(todo);
      var addr := TargetAddr(w.services[s].spec);
      var out' :=
        if s in known || addr == "" || addr in out then out
        else out[addr := GatewayRef(addr, s, "", LiveHash(w.services[s].spec))];
      SameAdoptLoop(w, u, out', known, todo - {s}, pick);
    }
  }

  lemma SameTracked(w: World, u: World, app: string, pick: Picker)
    requires w.services == u.services && EntryOf(w, app).gateways == EntryOf(u, app).gateways
    ensures Tracked(w, app, pick) == Tracked(u, app, pick)
  {
    hide StoreIndex;
    hide Adopt;
    var out := StoreIndex(EntryOf(w, app).gateways);
    assert Gateways(w, app) == Gateways(u, app);
    SameAdoptLoop(w, u, out, KnownServices(out), Gateways(w, app), pick);
  }

  lemma SameSlowPath(w: World, u: World, job: Job, tracked: map<string, GatewayRef>, ans: Answers)
    requires SameOutside(w, u)
    ensures var w', u' := SlowPath(w, job, tracked, ans).w, SlowPath(u, job, tracked, ans).w;
            && SameOutside(w', u')
            && EntryOf(w', job.app).gateways == EntryOf(u', job.app).gateways
            && EntryOf(w', job.app).gatewayHash == EntryOf(u', job.app).gatewayHash
  {
    hide RemoveLoop;
    hide PutLoop;
    hide SortedGateways;
    hide WholeHash;
    hide Desired;
    var desired := Desired(job.eg.targets);
    var p, q := Pass(w, tracked, true), Pass(u, tracked, true);
    SameRemoveLoop(p, q, desired.Keys, tracked.Keys, ans);
    SamePutLoop(RemoveLoop(p, desired.Keys, tracked.Keys, ans), RemoveLoop(q, desired.Keys, tracked.Keys, ans),
                job, desired, desired.Keys, ans);
  }

  lemma {:induction false} SameRemoveAll(w: World, u: World, refs: seq<GatewayRef>, remove: string -> RemoveAnswers)
    requires SameOutside(w, u)
    ensures SameOutside(RemoveAll(w, refs, remove).w, RemoveAll(u, refs, remove).w)
    decreases refs
  {
    hide RemoveGateway;
    if refs != [] {
      SameRemove(w, u, refs[0], remove(refs[0].target));
      SameRemoveAll(RemoveGateway(w, refs[0], remove(refs[0].target)).0, RemoveGateway(u, refs[0], remove(refs[0].target)).0,
                    refs[1..], remove);
    }
  }
}
