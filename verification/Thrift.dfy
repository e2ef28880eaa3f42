/** Exactly when no key is ever lost. Mints, proxy starts, creates, adoptions and removals in
    a diff may fail at will; what matters is in-place updates, teardowns and shutdowns, and
    those only where a key is at stake. */
module Thrift {
  import opened Targets
  import opened Gateway
  import opened Labels
  import opened World
  import opened Egress
  import opened Reconcile
  import opened Mirror
  import opened Loops
  import opened Convergence
  import opened EgressTheorems
  import opened Keys
  import opened Ledger
  import opened Conservation
  import opened Independence

  // ---------- the put loop ----------

  /** If the target's gateway is outdated and its line holds a key: the calls of the update
      succeed, the service runs, and the wanted name is free or its own. */
  predicate Takes(p: Pass, job: Job, t: EgressTarget, a: UpdateAnswers) {
    Attempted(p, job, t) && p.tracked[Addr(t)].keyId != "" ==>
      && SmoothUpdate(p.w, a) && p.tracked[Addr(t)].serviceId in p.w.services
      && Named(p.w, WantName(job, t)) <= {p.tracked[Addr(t)].serviceId}
  }

  /** So it is for every target when its turn comes. */
  ghost predicate UpdatesTake(p: Pass, job: Job, todo: set<string>, ans: Answers)
    requires todo <= Wanted(job).Keys
    decreases todo
  {
    if todo == {} then true
    else
      var a := ans.pick(todo);
      && Takes(p, job, Wanted(job)[a], ans.put(a).update)
      && UpdatesTake(PutOne(p, job, Wanted(job)[a], ans.put(a), ans.pick), job, todo - {a}, ans)
  }

  lemma PutLossIff(p: Pass, job: Job, t: EgressTarget, a: PutAnswers)
    ensures PutLoss(p, job, t, a) == {} <==> Takes(p, job, t, a.update)
  {
    hide UpdateGateway;
    hide SmoothUpdate;
    hide Named;
    hide WantHash;
    hide WantName;
    hide Addr;
    if Addr(t) in p.tracked {
      UpdatedIff(p.w, job, t, p.tracked[Addr(t)], a.update);
    }
  }

  lemma {:induction false} PutLossesIff(p: Pass, job: Job, todo: set<string>, ans: Answers)
    requires todo <= Wanted(job).Keys
    ensures PutLosses(p, job, Wanted(job), todo, ans) == {} <==> UpdatesTake(p, job, todo, ans)
    decreases todo
  {
    hide PutOne;
    hide PutLoss;
    hide Takes;
    hide Wanted;
    if todo != {} {
      var addr := ans.pick(todo);
      PutLossIff(p, job, Wanted(job)[addr], ans.put(addr));
      PutLossesIff(PutOne(p, job, Wanted(job)[addr], ans.put(addr), ans.pick), job, todo - {addr}, ans);
    }
  }

  /** The pass takes no diff, or every update in it that has a key at stake goes through. */
  ghost predicate PassSpares(w: World, job: Job, ans: Answers) {
    || job.image == "" || !ans.list
    || FastGate(job, EntryOf(w, job.app), Tracked(w, job.app, ans.pick), Wanted(job))
    || UpdatesTake(Pruned(w, job, ans), job, Wanted(job).Keys, ans)
  }

  lemma EgressLossIff(w: World, job: Job, ans: Answers)
    ensures EgressLoss(w, job, ans) == {} <==> PassSpares(w, job, ans)
  {
    hide Tracked;
    hide FastGate;
    hide PutLosses;
    hide UpdatesTake;
    hide Pruned;
    hide Wanted;
    PutLossesIff(Pruned(w, job, ans), job, Wanted(job).Keys, ans);
  }

  // ---------- teardowns ----------

  /** Every gateway that holds a key is removed without a fault. */
  ghost predicate RemovalsSpare(refs: seq<GatewayRef>, remove: string -> RemoveAnswers) {
    forall r :: r in refs ==> r.keyId == "" || SmoothRemove(remove(r.target))
  }

  lemma {:induction false} RemoveLossesIff(w: World, refs: seq<GatewayRef>, remove: string -> RemoveAnswers)
    ensures RemoveLosses(w, refs, remove) == {} <==> RemovalsSpare(refs, remove)
    decreases refs
  {
    if refs != [] {
      var ref, rest := refs[0], refs[1..];
      assert forall r :: r in refs <==> r == ref || r in rest;
      RemoveLossesIff(RemoveGateway(w, ref, remove(ref.target)).0, rest, remove);
    }
  }

  // ---------- runs ----------

  /** The event puts no key at stake, or comes without the fault that would lose it. */
  ghost predicate Spared(w: World, d: Daemon, ev: Event) {
    match ev
    case Reconciled(id, s) =>
      (match Decide(w.services, d, id, s)
       case Skip => true
       case Down => (s.ingress.wait || EntryOf(w, id).preAuthKey == "") && RemovalsSpare(EntryOf(w, id).gateways, s.egress.remove)
       case Up(tgt) =>
         var w1 := IngressPass(w, id, tgt, d.cfg, s.ingress).w;
         if tgt.egress.None? then RemovalsSpare(EntryOf(w1, id).gateways, s.egress.remove)
         else PassSpares(w1, Job(d.cfg, id, tgt.egress.value, d.image), s.egress))
    case SwarmChanged(_, _) => true
    case Shutdown(_) => Held(w) == {}
  }

  lemma EventLossIff(w: World, d: Daemon, ev: Event)
    ensures EventLoss(w, d, ev) == {} <==> Spared(w, d, ev)
  {
    hide ParseLabels;
    hide IsGateway;
    hide TeardownIngress;
    hide RemoveLosses;
    hide RemovalsSpare;
    hide EgressLoss;
    hide PassSpares;
    hide IngressPass;
    hide Held;
    if ev.Reconciled? {
      var id, s := ev.id, ev.script;
      match Decide(w.services, d, id, s)
      case Skip =>
      case Down => RemoveLossesIff(TeardownIngress(w, id, s.ingress).w, EntryOf(w, id).gateways, s.egress.remove);
      case Up(tgt) =>
        var w1 := IngressPass(w, id, tgt, d.cfg, s.ingress).w;
        if tgt.egress.None? {
          RemoveLossesIff(w1, EntryOf(w1, id).gateways, s.egress.remove);
        } else {
          EgressLossIff(w1, Job(d.cfg, id, tgt.egress.value, d.image), s.egress);
        }
    }
  }

  ghost predicate AllSpared(w: World, d: Daemon, events: seq<Event>)
    decreases events
  {
    events == [] || (Spared(w, d, events[0]) && AllSpared(Apply(w, d, events[0]), d, events[1..]))
  }

  lemma {:induction false} RunLossIff(w: World, d: Daemon, events: seq<Event>)
    ensures RunLoss(w, d, events) == {} <==> AllSpared(w, d, events)
    decreases events
  {
    hide Spared;
    hide Apply;
    hide EventLoss;
    if events != [] {
      EventLossIff(w, d, events[0]);
      RunLossIff(Apply(w, d, events[0]), d, events[1..]);
    }
  }

  /** Conservation, exactly: from a fresh start, over any run at all, every key ever minted is
      referenced by the store, once, or was passed to ExpireKey, if and only if every event
      of the run was spared. */
  lemma KeysAreConserved(w: World, d: Daemon, events: seq<Event>)
    requires w.store == map[] && w.minted == {} && w.expired == {}
    ensures var w' := Run(w, d, events);
            && KeyInv(w') && Held(w') !! w'.expired
            && (w'.minted == Held(w') + w'.expired <==> AllSpared(w, d, events))
  {
    hide Run;
    hide RunLoss;
    hide AllSpared;
    hide EntryKeys;
    RunLossIff(w, d, events);
    MintedKeysSplit(w, d, events);
    assert Held(w) == {};
    KeysOverRun(w, d, events);
  }
}
