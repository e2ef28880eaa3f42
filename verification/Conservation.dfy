/** Keys over whole runs: none is held and expired at once, none is held twice, and the
    ones that drop out of sight are exactly those of the listed branches. */
module Conservation {
  import opened Gateway
  import opened Labels
  import opened World
  import opened Egress
  import opened Reconcile
  import opened Keys
  import opened Ledger

  /** Every key some store entry refers to. */
  function Held(w: World): set<string> {
    set id, k | id in w.store && k in EntryKeys(w.store[id]) :: k
  }

  ghost predicate KeyInv(w: World) {
    && (forall id :: id in w.store ==> Shape(w.store[id]))
    && (forall id, id' :: id in w.store && id' in w.store && id != id' ==> EntryKeys(w.store[id]) !! EntryKeys(w.store[id']))
    && Books(w, Held(w))
    && w.expired <= w.minted
  }

  /** The keys one reconcile drops, branch by branch. */
  function Loss(w: World, d: Daemon, id: string, s: Script): set<string> {
    if !s.inspect then {}
    else if id !in w.services then TeardownLoss(w, id, s)
    else if IsGateway(w.services[id].spec) || s.networks.None? then {}
    else match ParseLabels(d.rules, w.services[id].spec, s.networks.value)
      case Malformed(_) => TeardownLoss(w, id, s)
      case Disabled => TeardownLoss(w, id, s)
      case Enabled(tgt) =>
        var w1 := IngressPass(w, id, tgt, d.cfg, s.ingress).w;
        if tgt.egress.None? then RemoveLosses(w1, EntryOf(w1, id).gateways, s.egress.remove)
        else EgressLoss(w1, Job(d.cfg, id, tgt.egress.value, d.image), s.egress)
  }

  lemma ReconcileEntry(w: World, d: Daemon, id: string, s: Script)
    requires EntryBooks(w, id)
    ensures EntryStep(w, ReconcileService(w, d, id, s).w, id, Loss(w, d, id, s))
  {
    hide ParseLabels;
    hide Teardown;
    hide TeardownLoss;
    hide TeardownEgress;
    hide RemoveLosses;
    hide EgressLoss;
    hide EgressPass;
    hide IngressPass;
    hide EntryStep;
    hide EntryBooks;
    hide IsGateway;
    EntryIdle(w, id);
    TeardownEntry(w, id, s);
    if s.inspect && id in w.services && s.networks.Some? {
      var o := ParseLabels(d.rules, w.services[id].spec, s.networks.value);
      if o.Enabled? {
        var tgt := o.target;
        var w1 := IngressPass(w, id, tgt, d.cfg, s.ingress).w;
        IngressEntry(w, id, tgt, d.cfg, s.ingress);
        StepBooks(w, w1, id, {});
        if tgt.egress.None? {
          var l := RemoveLosses(w1, EntryOf(w1, id).gateways, s.egress.remove);
          TeardownEgressEntry(w1, id, s.egress.remove);
          EntryStepTwice(w, w1, TeardownEgress(w1, id, s.egress.remove).w, id, {}, l);
          assert {} + l == l;
        } else {
          var job := Job(d.cfg, id, tgt.egress.value, d.image);
          var l := EgressLoss(w1, job, s.egress);
          EgressEntry(w1, job, s.egress);
          EntryStepTwice(w, w1, EgressPass(w1, job, s.egress).w, id, {}, l);
          assert {} + l == l;
        }
      }
    }
  }

  lemma IngressKeepsGateways(w: World, id: string, tgt: Target, cfg: Config, a: IngressAnswers)
    ensures EntryOf(IngressPass(w, id, tgt, cfg, a).w, id).gateways == EntryOf(w, id).gateways
  {
    hide HashOf;
  }

  /** A pass drops only keys its entry held before: a key minted in a pass is never lost. */
  lemma LossOld(w: World, d: Daemon, id: string, s: Script)
    requires EntryBooks(w, id)
    ensures Loss(w, d, id, s) <= EntryKeys(EntryOf(w, id))
  {
    hide ParseLabels;
    hide RemoveLosses;
    hide EgressLoss;
    hide IngressPass;
    hide TeardownIngress;
    hide IsGateway;
    hide Settles;
    RemoveLossesOld(TeardownIngress(w, id, s.ingress).w, EntryOf(w, id).gateways, s.egress.remove);
    if s.inspect && id in w.services && s.networks.Some? {
      var o := ParseLabels(d.rules, w.services[id].spec, s.networks.value);
      if o.Enabled? {
        var tgt := o.target;
        var w1 := IngressPass(w, id, tgt, d.cfg, s.ingress).w;
        IngressKeepsGateways(w, id, tgt, d.cfg, s.ingress);
        IngressEntry(w, id, tgt, d.cfg, s.ingress);
        RemoveLossesOld(w1, EntryOf(w1, id).gateways, s.egress.remove);
        if tgt.egress.Some? {
          EgressLossOld(w1, Job(d.cfg, id, tgt.egress.value, d.image), s.egress);
        }
      }
    }
  }

  // ---------- from one entry to the whole store ----------

  function HeldElsewhere(w: World, id: string): set<string> {
    set id', k | id' in w.store && id' != id && k in EntryKeys(w.store[id']) :: k
  }

  lemma HeldSplits(w: World, id: string)
    ensures Held(w) == EntryKeys(EntryOf(w, id)) + HeldElsewhere(w, id)
  {
    hide EntryKeys;
    if id !in w.store {
      ZeroHoldsNothing();
    }
    forall k | k in Held(w) ensures k in EntryKeys(EntryOf(w, id)) + HeldElsewhere(w, id) {
      var id' :| id' in w.store && k in EntryKeys(w.store[id']);
    }
  }

  lemma ZeroHoldsNothing()
    ensures EntryKeys(ZERO_ENTRY) == {} && Shape(ZERO_ENTRY)
  {
    GatewayKeysNil();
  }

  lemma InvGivesBooks(w: World, id: string)
    requires KeyInv(w)
    ensures EntryBooks(w, id) && EntryKeys(EntryOf(w, id)) !! HeldElsewhere(w, id)
  {
    hide EntryKeys;
    hide Shape;
    ZeroHoldsNothing();
    HeldSplits(w, id);
  }

  /** A step that settles one entry settles the store. */
  lemma Lift(w: World, w': World, id: string, lost: set<string>)
    requires KeyInv(w) && EntryStep(w, w', id, lost)
    ensures KeyInv(w') && Settles(w, Held(w), w', Held(w'), lost)
  {
    hide EntryKeys;
    hide Shape;
    hide Held;
    InvGivesBooks(w, id);
    HeldSplits(w, id);
    HeldSplits(w', id);
    var h, h', o := EntryKeys(EntryOf(w, id)), EntryKeys(EntryOf(w', id)), HeldElsewhere(w, id);
    SettlesFrame(w, h, w', h', lost, o);
    forall i | i != id ensures (i in w.store <==> i in w'.store) && (i in w.store ==> w'.store[i] == w.store[i]) {
      assert i in w.store <==> i in w.store - {id};
      assert i in w'.store <==> i in w'.store - {id};
      assert i in w.store ==> (w.store - {id})[i] == w.store[i] && (w'.store - {id})[i] == w'.store[i];
    }
    assert HeldElsewhere(w', id) == o;
    SettlesBooks(w, h + o, w', h' + o, lost);
    assert forall i :: i in w.store && i != id ==> EntryKeys(w.store[i]) <= o;
  }

  /** One reconcile of any service, under any answers whatsoever. */
  lemma ReconcileSettles(w: World, d: Daemon, id: string, s: Script)
    requires KeyInv(w)
    ensures var w' := ReconcileService(w, d, id, s).w;
            KeyInv(w') && Settles(w, Held(w), w', Held(w'), Loss(w, d, id, s)) && Loss(w, d, id, s) <= Held(w)
  {
    hide ReconcileService;
    hide Loss;
    hide EntryStep;
    hide EntryBooks;
    hide Held;
    hide Settles;
    hide EntryKeys;
    InvGivesBooks(w, id);
    ReconcileEntry(w, d, id, s);
    Lift(w, ReconcileService(w, d, id, s).w, id, Loss(w, d, id, s));
    LossOld(w, d, id, s);
    HeldSplits(w, id);
  }

  /** Fresh-key safety: whatever fails, each key minted during a pass is at its end either
      referenced by the store or passed to ExpireKey, and no referenced key ever was. */
  lemma FreshKeysSafe(w: World, d: Daemon, id: string, s: Script)
    requires KeyInv(w)
    ensures var w' := ReconcileService(w, d, id, s).w;
            && (forall k :: k in w'.minted && k !in w.minted ==> k in Held(w') || k in w'.expired)
            && Held(w') !! w'.expired
  {
    hide ReconcileService;
    hide Loss;
    hide Held;
    hide EntryKeys;
    hide Shape;
    ReconcileSettles(w, d, id, s);
    var w' := ReconcileService(w, d, id, s).w;
    assert forall k :: k in Unaccounted(w', Held(w')) ==> k in w.minted;
  }

  // ---------- runs ----------

  lemma MinusTwice<T>(m: map<string, T>, x: string, todo: set<string>)
    requires x in todo
    ensures (m - {x}) - (todo - {x}) == m - todo
  {
    assert {x} + (todo - {x}) == todo;
  }

  function CloseOne(w: World, id: string): World {
    var e := EntryOf(w, id);
    Delete(if e.proxy.Some? then CloseProxy(w, e.proxy.value) else w, id)
  }

  lemma CloseOneDeletes(w: World, id: string)
    ensures var w' := CloseOne(w, id);
            && w'.store == w.store - {id} && w'.minted == w.minted && w'.expired == w.expired
            && w'.services == w.services && w'.started == w.started && w'.launched == w.launched
  {
  }

  lemma {:induction false} CloseAllEmpties(w: World, todo: set<string>, pick: Picker)
    ensures var w' := CloseAll(w, todo, pick);
            && w'.store == w.store - todo && w'.minted == w.minted && w'.expired == w.expired
            && w'.services == w.services && w'.started == w.started && w'.launched == w.launched
    decreases todo
  {
    if todo == {} {
      assert w.store - {} == w.store;
    } else {
      var id := pick(todo);
      CloseOneDeletes(w, id);
      CloseAllEmpties(CloseOne(w, id), todo - {id}, pick);
      MinusTwice(w.store, id, todo);
      assert CloseAll(w, todo, pick) == CloseAll(CloseOne(w, id), todo - {id}, pick);
      hide CloseOne;
      hide CloseAll;
    }
  }

  function EventLoss(w: World, d: Daemon, ev: Event): set<string> {
    match ev
    case Reconciled(id, s) => Loss(w, d, id, s)
    case SwarmChanged(_, _) => {}
    case Shutdown(_) => Held(w)
  }

  function RunLoss(w: World, d: Daemon, events: seq<Event>): set<string>
    decreases events
  {
    if events == [] then {} else EventLoss(w, d, events[0]) + RunLoss(Apply(w, d, events[0]), d, events[1..])
  }

  lemma SameBooks(w: World, w': World)
    requires KeyInv(w) && w'.store == w.store && w'.minted == w.minted && w'.expired == w.expired
    ensures KeyInv(w') && Settles(w, Held(w), w', Held(w'), {})
  {
    hide EntryKeys;
    hide Shape;
    assert Held(w') == Held(w);
  }

  lemma EmptyBooks(w: World, w': World)
    requires KeyInv(w) && w'.store == map[] && w'.minted == w.minted && w'.expired == w.expired
    ensures KeyInv(w') && Settles(w, Held(w), w', Held(w'), Held(w))
  {
    hide EntryKeys;
    hide Shape;
    assert Held(w') == {};
  }

  lemma EventSettles(w: World, d: Daemon, ev: Event)
    requires KeyInv(w)
    ensures KeyInv(Apply(w, d, ev)) && Settles(w, Held(w), Apply(w, d, ev), Held(Apply(w, d, ev)), EventLoss(w, d, ev))
  {
    hide ReconcileService;
    hide Loss;
    hide KeyInv;
    hide Settles;
    hide Held;
    hide CloseAll;
    match ev
    case Reconciled(id, s) => ReconcileSettles(w, d, id, s);
    case SwarmChanged(services, ids) => SameBooks(w, Apply(w, d, ev));
    case Shutdown(pick) =>
      CloseAllEmpties(w, w.store.Keys, pick);
      EmptyBooks(w, CloseAll(w, w.store.Keys, pick));
  }

  /** Conservation: over any run, with the cluster changing arbitrarily in between, the
      minted keys are those referenced once by the store, those passed to ExpireKey, and
      those the listed branches dropped. */
  lemma {:induction false} KeysOverRun(w: World, d: Daemon, events: seq<Event>)
    requires KeyInv(w)
    ensures var w' := Run(w, d, events);
            && KeyInv(w')
            && Unaccounted(w', Held(w')) == Unaccounted(w, Held(w)) + RunLoss(w, d, events)
    decreases events
  {
    hide Apply;
    hide KeyInv;
    hide Held;
    hide EventLoss;
    if events != [] {
      EventSettles(w, d, events[0]);
      KeysOverRun(Apply(w, d, events[0]), d, events[1..]);
    }
  }

  /** From a fresh start the minted keys split in two exactly if nothing was dropped. */
  lemma MintedKeysSplit(w: World, d: Daemon, events: seq<Event>)
    requires w.store == map[] && w.minted == {} && w.expired == {}
    ensures var w' := Run(w, d, events);
            Held(w') !! w'.expired && (w'.minted == Held(w') + w'.expired <==> RunLoss(w, d, events) == {})
  {
    hide Run;
    hide RunLoss;
    hide EntryKeys;
    assert Held(w) == {};
    KeysOverRun(w, d, events);
  }
}
