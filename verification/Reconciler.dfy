/** The Reconciler of reconciler.go, statement by statement: each method changes the store
    and the outside world exactly as the function that specifies it. */
module Reconciler {
  import opened Text
  import opened Sorting
  import opened Targets
  import opened Gateway
  import opened Labels
  import opened World
  import opened Egress
  import opened Reconcile
  import Store

  class Reconciler {
    const daemon: Daemon
    const store: Store.Store
    var services: map<string, Service>
    var ids: set<string>
    var made: set<string>
    var minted: set<string>
    var expired: set<string>
    var started: set<nat>
    var closed: multiset<nat>
    var launched: map<nat, Launch>

    constructor (daemon: Daemon, services: map<string, Service>, ids: set<string>)
      ensures View() == World(map[], services, ids, {}, {}, {}, {}, multiset{}, map[])
      ensures this.daemon == daemon && fresh(store)
    {
      this.daemon := daemon;
      this.store := new Store.Store();
      this.services := services;
      this.ids := ids;
      made, minted, expired, started, closed, launched := {}, {}, {}, {}, multiset{}, map[];
    }

    function View(): World
      reads this, store
    {
      World(store.entries, services, ids, made, minted, expired, started, closed, launched)
    }

    // ---------- calls to the outside ----------

    method DockerCreate(spec: ServiceSpec, answer: Option<string>) returns (c: Created)
      modifies this
      ensures (View(), c) == CreateService(old(View()), spec, answer)
    {
      var (w, created) := CreateService(View(), spec, answer);
      services, ids, made := w.services, w.ids, w.made;
      c := created;
    }

    method DockerUpdate(id: string, version: nat, spec: ServiceSpec, answer: bool) returns (ok: bool)
      modifies this
      ensures (View(), ok) == UpdateService(old(View()), id, version, spec, answer)
    {
      var (w, updated) := UpdateService(View(), id, version, spec, answer);
      services := w.services;
      ok := updated;
    }

    method DockerRemove(id: string, answer: bool) returns (ok: bool)
      modifies this
      ensures (View(), ok) == RemoveService(old(View()), id, answer)
    {
      var (w, removed) := RemoveService(View(), id, answer);
      services := w.services;
      ok := removed;
    }

    method CreateEphemeralKey(answer: Option<Key>) returns (key: Option<Key>)
      modifies this
      ensures (View(), key) == Mint(old(View()), answer)
    {
      var (w, k) := Mint(View(), answer);
      minted := w.minted;
      key := k;
    }

    method ExpireKey(key: string)
      modifies this
      ensures View() == Expire(old(View()), key)
    {
      if key == "" {
        return;
      }
      expired := expired + {key};
    }

    // ---------- single gateways ----------

    method RemoveOneGateway(ref: GatewayRef, a: RemoveAnswers) returns (ok: bool)
      modifies this
      ensures (View(), ok) == RemoveGateway(old(View()), ref, a)
    {
      if !a.wait {
        return false;
      }
      var removed := DockerRemove(ref.serviceId, a.removed);
      if !removed {
        return false;
      }
      if ref.keyId != "" {
        if !a.waitExpire {
          return false;
        }
        ExpireKey(ref.keyId);
      }
      return true;
    }

    method AdoptExistingGateway(job: Job, t: EgressTarget, spec: ServiceSpec, key: Key, a: CreateAnswers, pick: Picker) returns (r: Option<GatewayRef>)
      requires spec == WantSpec(job, t, key.secret)
      modifies this
      ensures (View(), r) == AdoptExisting(old(View()), job, t, key, a, pick)
    {
      hide WantSpec;
      hide WantHash;
      hide Addr;
      if a.lookup == LookupFailed {
        ExpireKey(key.id);
        return None;
      }
      var gws := if a.lookup == LookupHit then Named(View(), spec.name) else {};
      if gws == {} {
        ExpireKey(key.id);
        return None;
      }
      var existing := pick(gws);
      var ok := DockerUpdate(existing, services[existing].version, spec, a.update);
      if !ok {
        ExpireKey(key.id);
        return None;
      }
      return Some(GatewayRef(Addr(t), existing, key.id, WantHash(job, t)));
    }

    method CreateOneGateway(job: Job, t: EgressTarget, a: CreateAnswers, pick: Picker) returns (r: Option<GatewayRef>)
      modifies this
      ensures (View(), r) == CreateGateway(old(View()), job, t, a, pick)
    {
      hide WantSpec;
      hide WantHash;
      hide Addr;
      hide AdoptExisting;
      hide CreateService;
      if !a.wait {
        return None;
      }
      var key := CreateEphemeralKey(a.key);
      if key.None? {
        return None;
      }
      var spec := WantSpec(job, t, key.value.secret);
      var created := DockerCreate(spec, a.id);
      if created.Exists? {
        r := AdoptExistingGateway(job, t, spec, key.value, a, pick);
        return;
      }
      if created.CreateFailed? {
        ExpireKey(key.value.id);
        return None;
      }
      return Some(GatewayRef(Addr(t), created.id, key.value.id, WantHash(job, t)));
    }

    method UpdateOneGateway(job: Job, t: EgressTarget, ref: GatewayRef, a: UpdateAnswers) returns (r: Updated)
      modifies this
      ensures (View(), r) == UpdateGateway(old(View()), job, t, ref, a)
    {
      hide WantSpec;
      hide WantHash;
      hide Addr;
      hide UpdateService;
      if !a.inspect {
        return UpdateFailed;
      }
      if ref.serviceId !in services {
        return Vanished;
      }
      var gw := services[ref.serviceId];
      if !a.wait {
        return UpdateFailed;
      }
      var key := CreateEphemeralKey(a.key);
      if key.None? {
        return UpdateFailed;
      }
      var ok := DockerUpdate(ref.serviceId, gw.version, WantSpec(job, t, key.value.secret), a.update);
      if !ok {
        ExpireKey(key.value.id);
        return UpdateFailed;
      }
      if ref.keyId != "" && ref.keyId != key.value.id {
        ExpireKey(ref.keyId);
      }
      return Updated(GatewayRef(Addr(t), ref.serviceId, key.value.id, WantHash(job, t)));
    }

    // ---------- the set reconcile ----------

    /** trackedGateways, once the listing has succeeded. */
    method TrackedGateways(app: string, prev: Entry, pick: Picker) returns (out: map<string, GatewayRef>)
      requires prev == EntryOf(View(), app)
      ensures out == Tracked(View(), app, pick)
    {
      hide TargetAddr;
      hide LiveHash;
      out := map[];
      for i := 0 to |prev.gateways|
        invariant out == StoreIndex(prev.gateways[..i])
      {
        assert prev.gateways[..i + 1][..i] == prev.gateways[..i];
        out := out[prev.gateways[i].target := prev.gateways[i]];
      }
      assert prev.gateways[..|prev.gateways|] == prev.gateways;
      var bySvc := KnownServices(out);
      var gws := Gateways(View(), app);
      while gws != {}
        invariant gws <= services.Keys
        invariant Adopt(View(), out, bySvc, gws, pick) == Tracked(View(), app, pick)
        decreases gws
      {
        var gw := pick(gws);
        gws := gws - {gw};
        if gw in bySvc {
          continue;
        }
        var addr := TargetAddr(services[gw].spec);
        if addr == "" {
          continue;
        }
        if addr in out {
          continue;
        }
        var hash := LiveGatewayHash(services[gw].spec);
        out := out[addr := GatewayRef(addr, gw, "", hash)];
      }
    }

    method DesiredTargets(targets: seq<EgressTarget>) returns (desired: map<string, EgressTarget>)
      ensures desired == Desired(targets)
    {
      hide Addr;
      desired := map[];
      for i := 0 to |targets|
        invariant desired == Desired(targets[..i])
      {
        assert targets[..i + 1][..i] == targets[..i];
        desired := desired[Addr(targets[i]) := targets[i]];
      }
      assert targets[..|targets|] == targets;
    }

    /** The fast-path test, with its early exit. */
    method GateOpen(job: Job, prev: Entry, tracked: map<string, GatewayRef>, desired: map<string, EgressTarget>, pick: Picker) returns (open: bool)
      ensures open <==> FastGate(job, prev, tracked, desired)
    {
      hide WholeHash;
      var desiredHash := GatewayHash(job.eg, job.image);
      if prev.gatewayHash != desiredHash || |tracked| != |desired| {
        return false;
      }
      var todo := desired.Keys;
      while todo != {}
        invariant todo <= desired.Keys && forall a :: a in desired && a !in todo ==> a in tracked
        decreases todo
      {
        var addr := pick(todo);
        if addr !in tracked {
          return false;
        }
        todo := todo - {addr};
      }
      return true;
    }

    /** The keys of the map in the order it is ranged over. */
    method RangeKeys(m: map<string, GatewayRef>, pick: Picker) returns (keys: seq<string>)
      ensures keys == Enumerate(m.Keys, pick)
    {
      keys := [];
      var todo := m.Keys;
      while todo != {}
        invariant keys + Enumerate(todo, pick) == Enumerate(m.Keys, pick)
        decreases todo
      {
        var k := pick(todo);
        assert keys + Enumerate(todo, pick) == (keys + [k]) + Enumerate(todo - {k}, pick);
        keys := keys + [k];
        todo := todo - {k};
      }
      assert keys + [] == keys;
    }

    method SortedGatewayList(m: map<string, GatewayRef>, pick: Picker) returns (out: seq<GatewayRef>)
      ensures out == SortedGateways(m, pick)
    {
      hide Enumerate;
      hide Sort;
      hide Leq;
      var keys := RangeKeys(m, pick);
      keys := Sort(Leq, keys);
      out := [];
      assert keys[0..] == keys && out + Values(m, keys) == Values(m, keys);
      for i := 0 to |keys|
        invariant out + Values(m, keys[i..]) == Values(m, keys)
      {
        assert keys[i..][1..] == keys[i + 1..] && keys[i..][0] == keys[i];
        if keys[i] in m {
          assert out + ([m[keys[i]]] + Values(m, keys[i + 1..])) == (out + [m[keys[i]]]) + Values(m, keys[i + 1..]);
          out := out + [m[keys[i]]];
        }
      }
    }

    /** First loop of reconcileEgress: remove what is no longer desired. */
    method RemoveUndesired(tracked0: map<string, GatewayRef>, desired: map<string, EgressTarget>, ans: Answers) returns (tracked: map<string, GatewayRef>, ok: bool)
      modifies this
      ensures Pass(View(), tracked, ok) == RemoveLoop(Pass(old(View()), tracked0, true), desired.Keys, tracked0.Keys, ans)
    {
      hide RemoveGateway;
      tracked, ok := tracked0, true;
      var todo := tracked0.Keys;
      while todo != {}
        invariant todo <= tracked.Keys
        invariant RemoveLoop(Pass(View(), tracked, ok), desired.Keys, todo, ans) ==
                  RemoveLoop(Pass(old(View()), tracked0, true), desired.Keys, tracked0.Keys, ans)
        decreases todo
      {
        var addr := ans.pick(todo);
        todo := todo - {addr};
        if addr in desired {
          continue;
        }
        var removed := RemoveOneGateway(tracked[addr], ans.remove(addr));
        if !removed {
          ok := false;
          continue;
        }
        tracked := tracked - {addr};
      }
    }

    /** Second loop: create, leave alone, update in place or recreate. */
    method PutDesired(job: Job, tracked0: map<string, GatewayRef>, desired: map<string, EgressTarget>, ok0: bool, ans: Answers) returns (tracked: map<string, GatewayRef>, ok: bool)
      requires forall a :: a in desired ==> Addr(desired[a]) == a
      modifies this
      ensures Pass(View(), tracked, ok) == PutLoop(Pass(old(View()), tracked0, ok0), job, desired, desired.Keys, ans)
    {
      hide CreateGateway;
      hide UpdateGateway;
      hide WantHash;
      hide Addr;
      tracked, ok := tracked0, ok0;
      var todo := desired.Keys;
      while todo != {}
        invariant todo <= desired.Keys
        invariant PutLoop(Pass(View(), tracked, ok), job, desired, todo, ans) ==
                  PutLoop(Pass(old(View()), tracked0, ok0), job, desired, desired.Keys, ans)
        decreases todo
      {
        ghost var p := Pass(View(), tracked, ok);
        var addr := ans.pick(todo);
        todo := todo - {addr};
        var t := desired[addr];
        if addr !in tracked {
          var created := CreateOneGateway(job, t, ans.put(addr).create, ans.pick);
          if created.None? {
            ok := false;
          } else {
            tracked := tracked[addr := created.value];
          }
        } else if tracked[addr].hash != WantHash(job, t) {
          var updated := UpdateOneGateway(job, t, tracked[addr], ans.put(addr).update);
          match updated {
            case UpdateFailed =>
              ok := false;
              tracked := tracked - {addr};
            case Vanished =>
              tracked := tracked - {addr};
              var created := CreateOneGateway(job, t, ans.put(addr).create, ans.pick);
              if created.None? {
                ok := false;
              } else {
                tracked := tracked[addr := created.value];
              }
            case Updated(ref) =>
              tracked := tracked[addr := ref];
          }
        }
        assert Pass(View(), tracked, ok) == PutOne(p, job, t, ans.put(addr), ans.pick);
      }
    }

    /** reconcileEgress for a service that does egress. */
    method ReconcileEgress(job: Job, ans: Answers) returns (ok: bool)
      modifies this, store
      ensures Step(View(), ok) == EgressPass(old(View()), job, ans)
    {
      hide RemoveLoop;
      hide PutLoop;
      hide Tracked;
      hide FastGate;
      hide SortedGateways;
      hide WholeHash;
      hide Desired;
      hide Addr;
      if job.image == "" {
        return false;
      }
      var prev, _ := store.Get(job.app);
      if !ans.list {
        return false;
      }
      var tracked := TrackedGateways(job.app, prev, ans.pick);
      var desired := DesiredTargets(job.eg.targets);
      var open := GateOpen(job, prev, tracked, desired, ans.pick);
      if open {
        store.Put(job.app, prev);
        return true;
      }
      tracked, ok := RemoveUndesired(tracked, desired, ans);
      tracked, ok := PutDesired(job, tracked, desired, ok, ans);
      var next := prev;
      var sorted := SortedGatewayList(tracked, ans.pick);
      next := next.(gateways := sorted);
      var hash := GatewayHash(job.eg, job.image);
      next := next.(gatewayHash := hash);
      store.Put(job.app, next);
    }

    // ---------- teardown ----------

    method TeardownGateways(app: string, remove: string -> RemoveAnswers) returns (ok: bool)
      modifies this, store
      ensures Step(View(), ok) == TeardownEgress(old(View()), app, remove)
    {
      hide RemoveGateway;
      var prev, found := store.Get(app);
      if !found || |prev.gateways| == 0 {
        return true;
      }
      ok := true;
      var refs := prev.gateways;
      ghost var all := RemoveAll(View(), refs, remove);
      assert refs[0..] == refs;
      for i := 0 to |refs|
        invariant store.entries == old(store.entries)
        invariant RemoveAll(View(), refs[i..], remove).w == all.w
        invariant all.ok == (ok && RemoveAll(View(), refs[i..], remove).ok)
      {
        assert refs[i..][1..] == refs[i + 1..] && refs[i..][0] == refs[i];
        var removed := RemoveOneGateway(refs[i], remove(refs[i].target));
        if !removed {
          ok := false;
        }
      }
      var next := prev.(gateways := [], gatewayHash := NoSetHash);
      if prev.proxy.None? {
        store.Delete(app);
      } else {
        store.Put(app, next);
      }
    }

    method TeardownProxy(id: string, a: IngressAnswers) returns (ok: bool)
      modifies this, store
      ensures Step(View(), ok) == TeardownIngress(old(View()), id, a)
    {
      var prev, found := store.Get(id);
      if !found || (prev.proxy.None? && prev.preAuthKey == "") {
        return true;
      }
      ok := true;
      if prev.proxy.Some? {
        closed := closed + multiset{prev.proxy.value};
        ok := a.close;
      }
      if prev.preAuthKey != "" {
        if !a.wait {
          return false;
        }
        expired := expired + {prev.preAuthKey};
        ok := ok && a.expire;
      }
      var next := prev.(proxy := None, specHash := NoProxyHash, preAuthKey := "");
      if |prev.gateways| == 0 {
        store.Delete(id);
      } else {
        store.Put(id, next);
      }
    }

    method TeardownBoth(id: string, s: Script) returns (ok: bool)
      modifies this, store
      ensures Step(View(), ok) == Teardown(old(View()), id, s)
    {
      hide TeardownIngress;
      hide TeardownEgress;
      var ing := TeardownProxy(id, s.ingress);
      var egr := TeardownGateways(id, s.egress.remove);
      store.Delete(id);
      return ing && egr;
    }

    // ---------- ingress ----------

    /** reconcileIngress: a rotation has stored the new proxy by the time it closes the old
        one. `atClose` is the state in which Close is called, if it is. */
    method ReconcileIngress(id: string, tgt: Target, a: IngressAnswers) returns (ok: bool, ghost atClose: World)
      modifies this, store
      ensures Step(View(), ok) == IngressPass(old(View()), id, tgt, daemon.cfg, a)
      ensures tgt.ingress && View().closed != old(View()).closed ==>
                && atClose.closed == old(View()).closed && atClose.started == View().started
                && atClose.store == View().store && EntryOf(atClose, id).proxy == a.start
    {
      atClose := View();
      hide HashOf;
      hide TeardownIngress;
      hide Rotate;
      if !tgt.ingress {
        ok := TeardownProxy(id, a);
        return;
      }
      var desired := ProxyConfigFor(tgt, daemon.cfg);
      var prev, hadPrev := store.Get(id);
      if hadPrev && prev.specHash == HashOf(desired) && prev.proxy.Some? {
        store.Put(id, prev);
        return true, View();
      }
      if !a.wait {
        return false, View();
      }
      ok, atClose := RotateProxy(id, prev, desired, a);
    }

    /** The rest of it: mint, start, store, close. */
    method RotateProxy(id: string, prev: Entry, desired: ProxyConfig, a: IngressAnswers) returns (ok: bool, ghost atClose: World)
      modifies this, store
      ensures Step(View(), ok) == Rotate(old(View()), id, prev, desired, a)
      ensures View().closed != old(View()).closed ==>
                && atClose.closed == old(View()).closed && atClose.started == View().started
                && atClose.store == View().store && EntryOf(atClose, id).proxy == a.start
    {
      hide HashOf;
      var key := CreateEphemeralKey(a.key);
      if key.None? {
        return false, View();
      }
      if a.start.None? || a.start.value in started {
        ExpireKey(key.value.id);
        return false, View();
      }
      started := started + {a.start.value};
      launched := launched[a.start.value := Launch(desired, key.value.secret)];
      store.Put(id, prev.(proxy := a.start, specHash := HashOf(desired), preAuthKey := key.value.id));
      atClose := View();
      if prev.proxy.Some? {
        closed := closed + multiset{prev.proxy.value};
        ExpireKey(prev.preAuthKey);
      }
      return true, atClose;
    }

    // ---------- the top level ----------

    method Reconcile(id: string, s: Script) returns (ok: bool)
      modifies this, store
      ensures Step(View(), ok) == ReconcileService(old(View()), daemon, id, s)
    {
      hide ParseLabels;
      hide IsGateway;
      hide Teardown;
      hide IngressPass;
      hide EgressPass;
      hide TeardownEgress;
      if !s.inspect {
        return false;
      }
      if id !in services {
        ok := TeardownBoth(id, s);
        return;
      }
      var target := services[id].spec;
      if IsGateway(target) {
        return true;
      }
      if s.networks.None? {
        return false;
      }
      match ParseLabels(daemon.rules, target, s.networks.value) {
        case Malformed(_) =>
          var _ := TeardownBoth(id, s);
          return false;
        case Disabled =>
          ok := TeardownBoth(id, s);
        case Enabled(tgt) =>
          var ing, _ := ReconcileIngress(id, tgt, s.ingress);
          var egr: bool;
          if tgt.egress.None? {
            egr := TeardownGateways(id, s.egress.remove);
          } else {
            egr := ReconcileEgress(Job(daemon.cfg, id, tgt.egress.value, daemon.image), s.egress);
          }
          ok := ing && egr;
      }
    }

    /** CloseAll over a snapshot of the store. */
    method CloseEverything(pick: Picker)
      modifies this, store
      ensures View() == CloseAll(old(View()), old(store.entries).Keys, pick)
    {
      var snapshot := store.Snapshot();
      var todo := snapshot.Keys;
      while todo != {}
        invariant todo <= snapshot.Keys
        invariant forall id :: id in todo ==> id in store.entries && store.entries[id] == snapshot[id]
        invariant CloseAll(View(), todo, pick) == CloseAll(old(View()), snapshot.Keys, pick)
        decreases todo
      {
        var id := pick(todo);
        var e := snapshot[id];
        todo := todo - {id};
        if e.proxy.Some? {
          closed := closed + multiset{e.proxy.value};
        }
        store.Delete(id);
      }
    }
  }
}
