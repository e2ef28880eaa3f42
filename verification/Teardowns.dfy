/** Tearing a service down: exactly what goes, for every combination of failures. */
module Teardowns {
  import opened Gateway
  import opened World
  import opened Egress
  import opened Reconcile
  import opened Mirror
  import opened Loops
  import opened Ledger
  import opened Proxies

  /** The gateway services whose deletion went through. */
  function DeletedIds(refs: seq<GatewayRef>, remove: string -> RemoveAnswers): set<string> {
    set r | r in refs && Deleted(remove(r.target)) :: r.serviceId
  }

  /** The keys of gateways removed without any fault. */
  function RetiredKeys(refs: seq<GatewayRef>, remove: string -> RemoveAnswers): set<string> {
    set r | r in refs && r.keyId != "" && SmoothRemove(remove(r.target)) :: r.keyId
  }

  predicate RemovedOk(r: GatewayRef, a: RemoveAnswers) { Deleted(a) && (r.keyId == "" || a.waitExpire) }

  lemma MinusBoth<K, V>(m: map<K, V>, a: set<K>, b: set<K>)
    ensures m - a - b == m - (a + b)
  {
  }

  lemma {:induction false} RemoveAllExact(w: World, refs: seq<GatewayRef>, remove: string -> RemoveAnswers)
    ensures var s := RemoveAll(w, refs, remove);
            && s.w.services == w.services - DeletedIds(refs, remove)
            && s.w.expired == w.expired + RetiredKeys(refs, remove)
            && s.w.minted == w.minted && s.w.ids == w.ids
            && (s.ok <==> forall r :: r in refs ==> RemovedOk(r, remove(r.target)))
    decreases refs
  {
    if refs == [] {
      assert DeletedIds(refs, remove) == {} && RetiredKeys(refs, remove) == {};
      assert w.services - {} == w.services;
    } else {
      var ref, rest := refs[0], refs[1..];
      var (w1, ok) := RemoveGateway(w, ref, remove(ref.target));
      RemoveAllExact(w1, rest, remove);
      assert forall r :: r in refs <==> r == ref || r in rest;
      var gone := if Deleted(remove(ref.target)) then {ref.serviceId} else {};
      var key := if ref.keyId != "" && SmoothRemove(remove(ref.target)) then {ref.keyId} else {};
      assert DeletedIds(refs, remove) == gone + DeletedIds(rest, remove);
      assert RetiredKeys(refs, remove) == key + RetiredKeys(rest, remove);
      assert w1.services == w.services - gone && w1.expired == w.expired + key;
      MinusBoth(w.services, gone, DeletedIds(rest, remove));
    }
  }

  lemma EgressTeardownExact(w: World, app: string, remove: string -> RemoveAnswers)
    ensures var refs := EntryOf(w, app).gateways;
            var s := TeardownEgress(w, app, remove);
            && s.w.services == w.services - DeletedIds(refs, remove)
            && s.w.expired == w.expired + RetiredKeys(refs, remove)
            && s.w.minted == w.minted && s.w.ids == w.ids && s.w.started == w.started && s.w.closed == w.closed && s.w.launched == w.launched
            && s.w.store - {app} == w.store - {app}
            && (s.ok <==> forall r :: r in refs ==> RemovedOk(r, remove(r.target)))
  {
    hide RemoveAll;
    hide DeletedIds;
    hide RetiredKeys;
    var refs := EntryOf(w, app).gateways;
    RemoveAllExact(w, refs, remove);
    RemoveAllStore(w, refs, remove);
    assert RemoveAll(w, [], remove) == Step(w, true) by { RemoveAllNil(w, remove); }
  }

  lemma RemoveAllNil(w: World, remove: string -> RemoveAnswers)
    ensures RemoveAll(w, [], remove) == Step(w, true)
  {
  }

  /** What a teardown leaves, whatever fails: the entry is always gone and its proxy closed;
      each gateway goes if its deletion does, each key if the waits before it do. */
  lemma TeardownExact(w: World, id: string, s: Script)
    ensures var e := EntryOf(w, id);
            var t := Teardown(w, id, s);
            && t.w.store == w.store - {id}
            && t.w.services == w.services - DeletedIds(e.gateways, s.egress.remove)
            && t.w.closed == w.closed + AsMultiset(e.proxy) && t.w.started == w.started && t.w.launched == w.launched
            && t.w.expired == w.expired + (if s.ingress.wait then IngressKey(e) else {}) + RetiredKeys(e.gateways, s.egress.remove)
            && t.w.minted == w.minted && t.w.ids == w.ids
            && (t.ok <==>
                  && (e.proxy.None? || s.ingress.close)
                  && (e.preAuthKey == "" || (s.ingress.wait && s.ingress.expire))
                  && forall r :: r in e.gateways ==> RemovedOk(r, s.egress.remove(r.target)))
  {
    hide TeardownIngress;
    hide TeardownEgress;
    hide DeletedIds;
    hide RetiredKeys;
    var w1 := TeardownIngress(w, id, s.ingress).w;
    IngressTeardownExact(w, id, s.ingress);
    EgressTeardownExact(w1, id, s.egress.remove);
    var w2 := TeardownEgress(w1, id, s.egress.remove).w;
    assert w2.store - {id} == w.store - {id};
  }

  /** The entry lists every running gateway of the service. */
  ghost predicate Listed(w: World, id: string) {
    forall g :: Runs(w.services, id, g) ==> exists r :: r in EntryOf(w, id).gateways && r.serviceId == g
  }

  /** Completeness: a fault-free teardown leaves no gateway, no open proxy and no entry, and
      every key the entry held has been passed to ExpireKey. */
  lemma TeardownComplete(w: World, id: string, s: Script)
    requires Listed(w, id)
    requires s.ingress.wait && s.ingress.close && s.ingress.expire && forall t :: SmoothRemove(s.egress.remove(t))
    ensures var e := EntryOf(w, id);
            var t := Teardown(w, id, s);
            && t.ok && id !in t.w.store
            && (forall g :: !Runs(t.w.services, id, g))
            && (e.proxy.Some? ==> e.proxy.value !in Open(t.w))
            && EntryKeys(e) <= t.w.expired
  {
    hide Teardown;
    hide MarkedFor;
    TeardownExact(w, id, s);
    var e := EntryOf(w, id);
    var w' := Teardown(w, id, s).w;
    forall r | r in e.gateways ensures r.serviceId in DeletedIds(e.gateways, s.egress.remove) {
      assert SmoothRemove(s.egress.remove(r.target));
    }
    forall g | Runs(w.services, id, g) ensures g !in w'.services {
      var r :| r in e.gateways && r.serviceId == g;
    }
    forall k | k in GatewayKeys(e.gateways) ensures k in RetiredKeys(e.gateways, s.egress.remove) {
      var r :| r in e.gateways && r.keyId == k;
      assert SmoothRemove(s.egress.remove(r.target));
    }
  }

  /** Exactly when a gateway outlives its entry: some deletion did not go through. The entry
      is gone either way, so nothing will ever retry it. */
  lemma OrphanedIff(w: World, id: string, s: Script)
    requires Listed(w, id)
    requires forall r, r' :: r in EntryOf(w, id).gateways && r' in EntryOf(w, id).gateways && r.serviceId == r'.serviceId ==> r == r'
    ensures var t := Teardown(w, id, s);
            && id !in t.w.store
            && ((exists g :: Runs(t.w.services, id, g)) <==>
                exists r :: r in EntryOf(w, id).gateways && Runs(w.services, id, r.serviceId) && !Deleted(s.egress.remove(r.target)))
  {
    hide Teardown;
    hide MarkedFor;
    TeardownExact(w, id, s);
    var refs := EntryOf(w, id).gateways;
    var w' := Teardown(w, id, s).w;
    if g :| Runs(w'.services, id, g) {
      assert Runs(w.services, id, g);
      var r :| r in refs && r.serviceId == g;
      assert r.serviceId !in DeletedIds(refs, s.egress.remove);
    }
    if r :| r in refs && Runs(w.services, id, r.serviceId) && !Deleted(s.egress.remove(r.target)) {
      assert r.serviceId !in DeletedIds(refs, s.egress.remove);
      assert Runs(w'.services, id, r.serviceId);
    }
  }
}
