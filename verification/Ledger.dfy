/** The keys of one store entry, through every step taken on its behalf. */
module Ledger {
  import opened Text
  import opened Targets
  import opened Gateway
  import opened Labels
  import opened World
  import opened Egress
  import opened Reconcile
  import opened Loops
  import opened Convergence
  import opened EgressTheorems
  import opened Keys

  function GatewayKeys(refs: seq<GatewayRef>): set<string> { set r | r in refs && r.keyId != "" :: r.keyId }

  function IngressKey(e: Entry): set<string> { if e.preAuthKey == "" then {} else {e.preAuthKey} }

  /** The keys a store entry refers to. */
  function EntryKeys(e: Entry): set<string> { GatewayKeys(e.gateways) + IngressKey(e) }

  /** Every stored entry: one line per target, no key twice, and a proxy exactly when there
      is an ingress key. */
  ghost predicate Shape(e: Entry) {
    && (forall i, j :: 0 <= i < j < |e.gateways| ==> e.gateways[i].target != e.gateways[j].target)
    && (forall i, j :: 0 <= i < j < |e.gateways| && e.gateways[i].keyId != "" ==> e.gateways[i].keyId != e.gateways[j].keyId)
    && GatewayKeys(e.gateways) !! IngressKey(e)
    && (e.proxy.None? <==> e.preAuthKey == "")
    && (e.proxy.None? ==> e.specHash == NoProxyHash)
  }

  ghost predicate EntryBooks(w: World, id: string) {
    Shape(EntryOf(w, id)) && Books(w, EntryKeys(EntryOf(w, id))) && w.expired <= w.minted
  }

  /** A step on one service's behalf: it touches that entry only, and settles its keys. */
  ghost predicate EntryStep(w: World, w': World, id: string, lost: set<string>) {
    && w'.store - {id} == w.store - {id}
    && EntryBooks(w', id)
    && Settles(w, EntryKeys(EntryOf(w, id)), w', EntryKeys(EntryOf(w', id)), lost)
  }

  lemma EntryStepTwice(w: World, w1: World, w2: World, id: string, l1: set<string>, l2: set<string>)
    requires EntryStep(w, w1, id, l1) && EntryStep(w1, w2, id, l2)
    ensures EntryStep(w, w2, id, l1 + l2)
  {
    hide EntryBooks;
    hide Settles;
    hide EntryKeys;
    SettlesTwice(w, EntryKeys(EntryOf(w, id)), w1, EntryKeys(EntryOf(w1, id)), w2, EntryKeys(EntryOf(w2, id)), l1, l2);
  }

  lemma EntryIdle(w: World, id: string)
    requires EntryBooks(w, id)
    ensures EntryStep(w, w, id, {})
  {
    hide EntryKeys;
    hide Shape;
    SettlesIdle(w, w, EntryKeys(EntryOf(w, id)));
  }

  // ---------- from records to working maps and back ----------

  lemma IndexHeld(refs: seq<GatewayRef>)
    requires forall i, j :: 0 <= i < j < |refs| ==> refs[i].target != refs[j].target
    requires forall i, j :: 0 <= i < j < |refs| && refs[i].keyId != "" ==> refs[i].keyId != refs[j].keyId
    ensures HeldBy(StoreIndex(refs)) == GatewayKeys(refs) && Once(StoreIndex(refs)) && Keyed(StoreIndex(refs))
  {
    hide StoreIndex;
    StoreIndexRefs(refs);
    var m := StoreIndex(refs);
    forall k | k in GatewayKeys(refs) ensures k in HeldBy(m) {
      var r :| r in refs && r.keyId == k;
      var i :| 0 <= i < |refs| && refs[i] == r;
      assert m[r.target] == r;
    }
    forall k | k in HeldBy(m) ensures k in GatewayKeys(refs) {
      var a :| a in m && m[a].keyId == k;
      assert m[a] in refs;
    }
    forall a, b | a in m && b in m && a != b && m[a].keyId != "" ensures m[a].keyId != m[b].keyId {
      var i :| 0 <= i < |refs| && refs[i] == m[a];
      var j :| 0 <= j < |refs| && refs[j] == m[b];
    }
  }

  lemma {:induction false} AdoptHeld(w: World, out: map<string, GatewayRef>, known: set<string>, todo: set<string>, pick: Picker)
    requires todo <= w.services.Keys && Once(out) && Keyed(out)
    ensures var r := Adopt(w, out, known, todo, pick);
            HeldBy(r) == HeldBy(out) && Once(r) && Keyed(r)
    decreases todo
  {
    hide TargetAddr;
    hide LiveHash;
    hide Once;
    hide HeldBy;
    if todo != {} {
      var s := pick(todo);
      var addr := TargetAddr(w.services[s].spec);
      var ref := GatewayRef(addr, s, "", LiveHash(w.services[s].spec));
      if s in known || addr == "" || addr in out {
        AdoptHeld(w, out, known, todo - {s}, pick);
      } else {
        HeldWith(out, addr, ref);
        AdoptHeld(w, out[addr := ref], known, todo - {s}, pick);
      }
    }
  }

  lemma TrackedHeld(w: World, app: string, pick: Picker)
    requires Shape(EntryOf(w, app))
    ensures var tracked := Tracked(w, app, pick);
            HeldBy(tracked) == GatewayKeys(EntryOf(w, app).gateways) && Once(tracked) && Keyed(tracked)
  {
    hide StoreIndex;
    hide Adopt;
    hide HeldBy;
    hide Once;
    IndexHeld(EntryOf(w, app).gateways);
    var out := StoreIndex(EntryOf(w, app).gateways);
    AdoptHeld(w, out, KnownServices(out), Gateways(w, app), pick);
  }

  lemma SortedHeld(m: map<string, GatewayRef>, pick: Picker)
    requires Keyed(m) && Once(m)
    ensures var refs := SortedGateways(m, pick);
            && GatewayKeys(refs) == HeldBy(m)
            && (forall i, j :: 0 <= i < j < |refs| ==> refs[i].target != refs[j].target)
            && (forall i, j :: 0 <= i < j < |refs| && refs[i].keyId != "" ==> refs[i].keyId != refs[j].keyId)
  {
    hide SortedGateways;
    hide StoreIndex;
    hide Leq;
    SortedGatewaysExact(m, pick);
    var refs := SortedGateways(m, pick);
    forall i | 0 <= i < |refs| ensures refs[i].target in m && m[refs[i].target] == refs[i] {
      assert refs[i] in refs;
    }
    forall k | k in HeldBy(m) ensures k in GatewayKeys(refs) {
      var a :| a in m && m[a].keyId == k;
      assert m[a] in refs;
    }
  }

  // ---------- egress ----------

  /** The keys reconcileEgress drops: old keys of failed in-place updates and of gateways
      found vanished. */
  function EgressLoss(w: World, job: Job, ans: Answers): set<string> {
    if job.image == "" || !ans.list || FastGate(job, EntryOf(w, job.app), Tracked(w, job.app, ans.pick), Wanted(job)) then {}
    else PutLosses(Pruned(w, job, ans), job, Wanted(job), Wanted(job).Keys, ans)
  }

  lemma SlowEntry(w: World, job: Job, ans: Answers)
    requires EntryBooks(w, job.app)
    ensures EntryStep(w, SlowPath(w, job, Tracked(w, job.app, ans.pick), ans).w, job.app,
                      PutLosses(Pruned(w, job, ans), job, Wanted(job), Wanted(job).Keys, ans))
  {
    hide Tracked;
    hide Pruned;
    hide Diffed;
    hide PutLosses;
    hide SortedGateways;
    hide Wanted;
    hide HeldBy;
    hide Once;
    hide Keyed;
    hide SlowPath;
    hide WholeHash;
    hide Settles;
    var e := EntryOf(w, job.app);
    DiffSettles(w, job, ans);
    SlowPathIs(w, job, ans);
    var p := Diffed(w, job, ans);
    SortedHeld(p.tracked, ans.pick);
    var w' := SlowPath(w, job, Tracked(w, job.app, ans.pick), ans).w;
    var lost := PutLosses(Pruned(w, job, ans), job, Wanted(job), Wanted(job).Keys, ans);
    BooksPart(w, GatewayKeys(e.gateways), IngressKey(e));
    SettlesFrame(w, GatewayKeys(e.gateways), p.w, HeldBy(p.tracked), lost, IngressKey(e));
    StoreFrame(w, p.w, w', job.app, EntryOf(w', job.app));
    SameKeys(p.w, w', w, EntryKeys(e), HeldBy(p.tracked) + IngressKey(e), lost);
    SettlesBooks(w, EntryKeys(e), w', EntryKeys(EntryOf(w', job.app)), lost);
  }

  lemma EgressEntry(w: World, job: Job, ans: Answers)
    requires EntryBooks(w, job.app)
    ensures EntryStep(w, EgressPass(w, job, ans).w, job.app, EgressLoss(w, job, ans))
  {
    hide Tracked;
    hide FastGate;
    hide PutLosses;
    hide Pruned;
    hide Wanted;
    hide SlowPath;
    hide EgressPass;
    hide EntryStep;
    hide EntryBooks;
    EgressPassCases(w, job, ans);
    EntryIdle(w, job.app);
    SlowEntry(w, job, ans);
  }

  lemma StoreFrame(w: World, p: World, w': World, id: string, e: Entry)
    requires p.store == w.store && w'.store == p.store[id := e]
    ensures w'.store - {id} == w.store - {id}
  {
  }

  lemma SameKeys(p: World, w': World, w: World, h: set<string>, h': set<string>, lost: set<string>)
    requires Settles(w, h, p, h', lost) && w'.minted == p.minted && w'.expired == p.expired
    ensures Settles(w, h, w', h', lost)
  {
  }

  lemma DiffSettles(w: World, job: Job, ans: Answers)
    requires EntryBooks(w, job.app)
    ensures var p := Diffed(w, job, ans);
            && PassBooks(p) && p.w.store == w.store
            && Settles(w, GatewayKeys(EntryOf(w, job.app).gateways), p.w, HeldBy(p.tracked),
                       PutLosses(Pruned(w, job, ans), job, Wanted(job), Wanted(job).Keys, ans))
  {
    hide Tracked;
    hide RemoveLoop;
    hide PutLoop;
    hide PutLosses;
    hide Wanted;
    hide HeldBy;
    hide Once;
    hide Keyed;
    hide Settles;
    var e := EntryOf(w, job.app);
    var tracked := Tracked(w, job.app, ans.pick);
    TrackedHeld(w, job.app, ans.pick);
    var p0 := Pass(w, tracked, true);
    BooksPart(w, GatewayKeys(e.gateways), IngressKey(e));
    RemoveLoopSettles(p0, Wanted(job).Keys, tracked.Keys, ans);
    var p1 := Pruned(w, job, ans);
    PutLoopSettles(p1, job, Wanted(job), Wanted(job).Keys, ans);
    var p := Diffed(w, job, ans);
    var lost := PutLosses(p1, job, Wanted(job), Wanted(job).Keys, ans);
    SettlesTwice(w, HeldBy(tracked), p1.w, HeldBy(p1.tracked), p.w, HeldBy(p.tracked), {}, lost);
    assert {} + lost == lost;
    RemoveLoopStore(p0, Wanted(job).Keys, tracked.Keys, ans);
    PutLoopStore(p1, job, Wanted(job), Wanted(job).Keys, ans);
  }

  lemma BooksPart(w: World, h: set<string>, k: set<string>)
    requires Books(w, h + k)
    ensures Books(w, h) && Books(w, k)
  {
  }

  lemma {:induction false} RemoveLoopStore(p: Pass, keep: set<string>, todo: set<string>, ans: Answers)
    requires todo <= p.tracked.Keys
    ensures var p' := RemoveLoop(p, keep, todo, ans);
            && p'.w.store == p.w.store && p'.w.started == p.w.started && p'.w.closed == p.w.closed && p'.w.launched == p.w.launched
            && Submap(p'.tracked, p.tracked)
    decreases todo
  {
    hide RemoveGateway;
    if todo != {} {
      var addr := ans.pick(todo);
      var p1 := if addr in keep then p else RemoveOne(p, addr, ans.remove(addr));
      RemoveLoopStore(p1, keep, todo - {addr}, ans);
    }
  }

  lemma PutOneStore(p: Pass, job: Job, t: EgressTarget, a: PutAnswers, pick: Picker)
    ensures var p' := PutOne(p, job, t, a, pick);
            p'.w.store == p.w.store && p'.w.started == p.w.started && p'.w.closed == p.w.closed && p'.w.launched == p.w.launched
  {
    hide CreateGateway;
    hide UpdateGateway;
    hide WantHash;
    hide Addr;
  }

  lemma {:induction false} PutLoopStore(p: Pass, job: Job, desired: map<string, EgressTarget>, todo: set<string>, ans: Answers)
    requires todo <= desired.Keys
    ensures var p' := PutLoop(p, job, desired, todo, ans);
            p'.w.store == p.w.store && p'.w.started == p.w.started && p'.w.closed == p.w.closed && p'.w.launched == p.w.launched
    decreases todo
  {
    hide PutOne;
    if todo != {} {
      var addr := ans.pick(todo);
      PutOneStore(p, job, desired[addr], ans.put(addr), ans.pick);
      PutLoopStore(PutOne(p, job, desired[addr], ans.put(addr), ans.pick), job, desired, todo - {addr}, ans);
    }
  }

  /** What reconcileEgress drops, the entry held before the pass. */
  lemma EgressLossOld(w: World, job: Job, ans: Answers)
    requires Shape(EntryOf(w, job.app))
    ensures EgressLoss(w, job, ans) <= GatewayKeys(EntryOf(w, job.app).gateways)
  {
    hide Tracked;
    hide FastGate;
    hide RemoveLoop;
    hide PutLosses;
    hide Addr;
    if EgressLoss(w, job, ans) != {} {
      var tracked := Tracked(w, job.app, ans.pick);
      TrackedHeld(w, job.app, ans.pick);
      RemoveLoopStore(Pass(w, tracked, true), Wanted(job).Keys, tracked.Keys, ans);
      PutLossesOld(Pruned(w, job, ans), job, Wanted(job), Wanted(job).Keys, ans);
      var p1 := Pruned(w, job, ans);
      forall a | a in p1.tracked && p1.tracked[a].keyId != "" ensures p1.tracked[a].keyId in HeldBy(tracked) {
        assert tracked[a] == p1.tracked[a];
      }
    }
  }

  // ---------- teardown ----------

  /** The keys of the gateways whose removal fails. */
  function RemoveLosses(w: World, refs: seq<GatewayRef>, remove: string -> RemoveAnswers): set<string>
    decreases refs
  {
    if refs == [] then {}
    else
      var (w1, ok) := RemoveGateway(w, refs[0], remove(refs[0].target));
      (if ok then {} else KeyOf(refs[0])) + RemoveLosses(w1, refs[1..], remove)
  }

  lemma {:induction false} RemoveAllSettles(w: World, refs: seq<GatewayRef>, remove: string -> RemoveAnswers)
    requires forall i, j :: 0 <= i < j < |refs| && refs[i].keyId != "" ==> refs[i].keyId != refs[j].keyId
    requires Books(w, GatewayKeys(refs)) && w.expired <= w.minted
    ensures var w' := RemoveAll(w, refs, remove).w;
            && w'.store == w.store && w'.expired <= w'.minted && w'.started == w.started && w'.closed == w.closed
            && Settles(w, GatewayKeys(refs), w', {}, RemoveLosses(w, refs, remove))
    decreases refs
  {
    hide RemoveGateway;
    hide GatewayKeys;
    GatewayKeysNil();
    if refs != [] {
      var ref := refs[0];
      GatewayKeysHead(refs);
      RemoveGatewaySettles(w, ref, remove(ref.target));
      var (w1, ok) := RemoveGateway(w, ref, remove(ref.target));
      RemoveOrDrop(w, ref, w1, ok);
      var rest := GatewayKeys(refs[1..]);
      var l1 := if ok then {} else KeyOf(ref);
      SettlesFrame(w, KeyOf(ref), w1, {}, l1, rest);
      assert {} + rest == rest && KeyOf(ref) + rest == GatewayKeys(refs);
      SettlesBooks(w, GatewayKeys(refs), w1, rest, l1);
      RemoveAllSettles(w1, refs[1..], remove);
      SettlesTwice(w, GatewayKeys(refs), w1, rest, RemoveAll(w1, refs[1..], remove).w, {}, l1, RemoveLosses(w1, refs[1..], remove));
    }
  }

  lemma RemoveOrDrop(w: World, ref: GatewayRef, w1: World, ok: bool)
    requires Settles(w, KeyOf(ref), w1, if ok then {} else KeyOf(ref), {}) && Books(w, KeyOf(ref)) && w.expired <= w.minted
    ensures Settles(w, KeyOf(ref), w1, {}, if ok then {} else KeyOf(ref)) && w1.expired <= w1.minted
  {
  }

  lemma GatewayKeysNil()
    ensures GatewayKeys([]) == {}
  {
  }

  lemma GatewayKeysHead(refs: seq<GatewayRef>)
    requires refs != []
    requires forall i, j :: 0 <= i < j < |refs| && refs[i].keyId != "" ==> refs[i].keyId != refs[j].keyId
    ensures GatewayKeys(refs) == KeyOf(refs[0]) + GatewayKeys(refs[1..]) && KeyOf(refs[0]) !! GatewayKeys(refs[1..])
  {
    forall r | r in refs ensures r == refs[0] || r in refs[1..] {}
    forall k | k in GatewayKeys(refs[1..]) ensures k !in KeyOf(refs[0]) {
      var r :| r in refs[1..] && r.keyId == k;
      var i :| 0 <= i < |refs[1..]| && refs[1..][i] == r;
      assert refs[i + 1] == r;
    }
  }

  lemma TeardownEgressEntry(w: World, app: string, remove: string -> RemoveAnswers)
    requires EntryBooks(w, app)
    ensures EntryStep(w, TeardownEgress(w, app, remove).w, app,
                      RemoveLosses(w, EntryOf(w, app).gateways, remove))
    ensures EntryOf(TeardownEgress(w, app, remove).w, app).gateways == []
  {
    hide RemoveAll;
    hide Settles;
    EntryIdle(w, app);
    GatewayKeysNil();
    var e := EntryOf(w, app);
    if e.gateways == [] {
      assert RemoveLosses(w, [], remove) == {};
    } else {
      RemoveAllSettles(w, e.gateways, remove);
      var r := RemoveAll(w, e.gateways, remove).w;
      var lost := RemoveLosses(w, e.gateways, remove);
      SettlesFrame(w, GatewayKeys(e.gateways), r, {}, lost, IngressKey(e));
      var w' := TeardownEgress(w, app, remove).w;
      SameKeys(r, w', w, EntryKeys(e), {} + IngressKey(e), lost);
      assert {} + IngressKey(e) == IngressKey(e) == EntryKeys(EntryOf(w', app));
      SettlesBooks(w, EntryKeys(e), w', EntryKeys(EntryOf(w', app)), lost);
    }
  }

  lemma TeardownIngressEntry(w: World, id: string, a: IngressAnswers)
    requires EntryBooks(w, id)
    ensures EntryStep(w, TeardownIngress(w, id, a).w, id, {})
  {
    GatewayKeysNil();
    EntryIdle(w, id);
    var w' := TeardownIngress(w, id, a).w;
    var e, e' := EntryOf(w, id), EntryOf(w', id);
    assert e'.gateways == e.gateways;
    assert w'.store - {id} == w.store - {id};
    if e.preAuthKey != "" && a.wait {
      assert e.preAuthKey in EntryKeys(e);
      assert EntryKeys(e') == GatewayKeys(e.gateways);
    }
  }

  lemma IngressEntry(w: World, id: string, tgt: Target, cfg: Config, a: IngressAnswers)
    requires EntryBooks(w, id)
    ensures EntryStep(w, IngressPass(w, id, tgt, cfg, a).w, id, {})
  {
    hide HashOf;
    hide TeardownIngress;
    hide Rotate;
    hide EntryStep;
    EntryIdle(w, id);
    var e := EntryOf(w, id);
    var w' := IngressPass(w, id, tgt, cfg, a).w;
    if !tgt.ingress {
      TeardownIngressEntry(w, id, a);
    } else if e.specHash == HashOf(ProxyConfigFor(tgt, cfg)) && e.proxy.Some? {
      assert w' == w;
    } else {
      RotateEntry(w, id, ProxyConfigFor(tgt, cfg), a);
    }
  }

  lemma RotateEntry(w: World, id: string, config: ProxyConfig, a: IngressAnswers)
    requires EntryBooks(w, id)
    ensures EntryStep(w, Rotate(w, id, EntryOf(w, id), config, a).w, id, {})
  {
    hide HashOf;
    hide Rotate;
    var e := EntryOf(w, id);
    RotateExact(w, id, e, config, a);
    var w' := Rotate(w, id, e, config, a).w;
    assert w'.store - {id} == w.store - {id};
    assert forall k :: k in IngressKey(e) ==> k in EntryKeys(e);
  }

  /** The ingress key a full teardown drops: the limiter fails before the key is expired,
      and the entry is deleted all the same. */
  function IngressTeardownLoss(e: Entry, a: IngressAnswers): set<string> {
    if a.wait then {} else IngressKey(e)
  }

  function TeardownLoss(w: World, id: string, s: Script): set<string> {
    RemoveLosses(TeardownIngress(w, id, s.ingress).w, EntryOf(w, id).gateways, s.egress.remove) +
    IngressTeardownLoss(EntryOf(w, id), s.ingress)
  }

  lemma DeleteEntry(w: World, id: string)
    requires EntryBooks(w, id)
    ensures EntryStep(w, Delete(w, id), id, EntryKeys(EntryOf(w, id)))
  {
    GatewayKeysNil();
    assert EntryKeys(ZERO_ENTRY) == {};
  }

  lemma TeardownEntry(w: World, id: string, s: Script)
    requires EntryBooks(w, id)
    ensures EntryStep(w, Teardown(w, id, s).w, id, TeardownLoss(w, id, s))
  {
    hide TeardownIngress;
    hide TeardownEgress;
    hide RemoveLosses;
    hide EntryStep;
    hide EntryKeys;
    var w1 := TeardownIngress(w, id, s.ingress).w;
    TeardownIngressEntry(w, id, s.ingress);
    StepBooks(w, w1, id, {});
    var w2 := TeardownEgress(w1, id, s.egress.remove).w;
    TeardownEgressEntry(w1, id, s.egress.remove);
    var l := RemoveLosses(w1, EntryOf(w1, id).gateways, s.egress.remove);
    StepBooks(w1, w2, id, l);
    EntryStepTwice(w, w1, w2, id, {}, l);
    assert {} + l == l;
    DeleteEntry(w2, id);
    EntryStepTwice(w, w2, Delete(w2, id), id, l, EntryKeys(EntryOf(w2, id)));
    TornDownKey(w, id, s);
  }

  lemma StepBooks(w: World, w': World, id: string, lost: set<string>)
    requires EntryStep(w, w', id, lost)
    ensures EntryBooks(w', id)
  {
  }

  lemma TornDownKey(w: World, id: string, s: Script)
    requires Shape(EntryOf(w, id))
    ensures var w1 := TeardownIngress(w, id, s.ingress).w;
            var w2 := TeardownEgress(w1, id, s.egress.remove).w;
            && EntryOf(w1, id).gateways == EntryOf(w, id).gateways
            && EntryKeys(EntryOf(w2, id)) == IngressTeardownLoss(EntryOf(w, id), s.ingress)
  {
    hide TeardownIngress;
    hide TeardownEgress;
    hide EntryKeys;
    IngressTornDown(w, id, s.ingress);
    EgressTornDown(TeardownIngress(w, id, s.ingress).w, id, s.egress.remove);
  }

  lemma IngressTornDown(w: World, id: string, a: IngressAnswers)
    requires Shape(EntryOf(w, id))
    ensures var e1 := EntryOf(TeardownIngress(w, id, a).w, id);
            && e1.gateways == EntryOf(w, id).gateways
            && IngressKey(e1) == IngressTeardownLoss(EntryOf(w, id), a)
            && (e1.proxy.None? ==> e1.preAuthKey == "")
  {
    hide GatewayKeys;
  }

  lemma EgressTornDown(w: World, id: string, remove: string -> RemoveAnswers)
    requires EntryOf(w, id).proxy.None? ==> EntryOf(w, id).preAuthKey == ""
    ensures EntryKeys(EntryOf(TeardownEgress(w, id, remove).w, id)) == IngressKey(EntryOf(w, id))
  {
    hide RemoveAll;
    GatewayKeysNil();
    RemoveAllStore(w, EntryOf(w, id).gateways, remove);
  }

  lemma {:induction false} RemoveAllStore(w: World, refs: seq<GatewayRef>, remove: string -> RemoveAnswers)
    ensures var w' := RemoveAll(w, refs, remove).w;
            w'.store == w.store && w'.started == w.started && w'.closed == w.closed && w'.launched == w.launched
    decreases refs
  {
    hide RemoveGateway;
    if refs != [] {
      RemoveAllStore(RemoveGateway(w, refs[0], remove(refs[0].target)).0, refs[1..], remove);
    }
  }

  lemma {:induction false} RemoveLossesOld(w: World, refs: seq<GatewayRef>, remove: string -> RemoveAnswers)
    ensures RemoveLosses(w, refs, remove) <= GatewayKeys(refs)
    decreases refs
  {
    hide RemoveGateway;
    if refs != [] {
      RemoveLossesOld(RemoveGateway(w, refs[0], remove(refs[0].target)).0, refs[1..], remove);
      assert refs[0] in refs;
    }
  }
}
