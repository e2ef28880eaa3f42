/** The egress set-reconcile of reconciler.go, one function per Go function. */
module Egress {
  import opened Text
  import opened Sorting
  import opened Targets
  import opened Gateway
  import opened World

  /** An order in which Go may range over a map: any choice among what is left. */
  type Picker = f: set<string> -> string | forall s :: s != {} ==> f(s) in s
    ghost witness (s: set<string>) => if s == {} then "" else var x :| x in s; x

  /** One app's egress wish, with what the daemon adds to it. */
  datatype Job = Job(cfg: Config, app: string, eg: EgressSpec, image: string)

  function WantName(job: Job, t: EgressTarget): string { ServiceName(job.cfg, job.eg.hostname, t) }

  function WantSpec(job: Job, t: EgressTarget, secret: string): ServiceSpec {
    Spec(job.cfg, job.eg, t, job.app, job.image, secret)
  }

  function WantHash(job: Job, t: EgressTarget): Hash { TargetHash(job.cfg, job.eg, t, job.image) }

  /** The desired targets keyed by address. */
  function Desired(ts: seq<EgressTarget>): (d: map<string, EgressTarget>)
    ensures forall a :: a in d ==> d[a] in ts && Addr(d[a]) == a
    ensures forall t :: t in ts ==> Addr(t) in d
  {
    if ts == [] then map[]
    else
      var last := ts[|ts| - 1];
      assert forall t :: t in ts ==> t in ts[..|ts| - 1] || t == last;
      Desired(ts[..|ts| - 1])[Addr(last) := last]
  }

  // ---------- the answers of the outside world ----------

  datatype RemoveAnswers = RemoveAnswers(wait: bool, removed: bool, waitExpire: bool)

  datatype LookupAnswer = LookupFailed | LookupEmpty | LookupHit

  datatype CreateAnswers = CreateAnswers(wait: bool, key: Option<Key>, id: Option<string>, lookup: LookupAnswer, update: bool)

  datatype UpdateAnswers = UpdateAnswers(inspect: bool, wait: bool, key: Option<Key>, update: bool)

  datatype PutAnswers = PutAnswers(update: UpdateAnswers, create: CreateAnswers)

  /** Every call of a pass happens at most once per address, so a function of the address
      gives each call its own, independent answer. */
  datatype Answers = Answers(pick: Picker, list: bool, remove: string -> RemoveAnswers, put: string -> PutAnswers)

  // ---------- single gateways ----------

  /** removeGateway. */
  function RemoveGateway(w: World, ref: GatewayRef, a: RemoveAnswers): (r: (World, bool))
    ensures r.0.store == w.store && r.0.started == w.started && r.0.closed == w.closed && r.0.launched == w.launched
  {
    if !a.wait then (w, false)
    else
      var (w1, removed) := RemoveService(w, ref.serviceId, a.removed);
      if !removed then (w1, false)
      else if ref.keyId == "" then (w1, true)
      else if !a.waitExpire then (w1, false)
      else (Expire(w1, ref.keyId), true)
  }

  /** adoptExistingGateway: take over the service that holds the wanted name. */
  function AdoptExisting(w: World, job: Job, t: EgressTarget, key: Key, a: CreateAnswers, pick: Picker): (r: (World, Option<GatewayRef>))
    ensures r.0.store == w.store && r.0.started == w.started && r.0.closed == w.closed && r.0.launched == w.launched
    ensures r.1.Some? ==> r.1.value.target == Addr(t)
  {
    var spec := WantSpec(job, t, key.secret);
    var holders := Named(w, spec.name);
    if a.lookup != LookupHit || holders == {} then (Expire(w, key.id), None)
    else
      var existing := pick(holders);
      var (w1, updated) := UpdateService(w, existing, w.services[existing].version, spec, a.update);
      if updated then (w1, Some(GatewayRef(Addr(t), existing, key.id, WantHash(job, t))))
      else (Expire(w1, key.id), None)
  }

  /** createGateway. */
  function CreateGateway(w: World, job: Job, t: EgressTarget, a: CreateAnswers, pick: Picker): (r: (World, Option<GatewayRef>))
    ensures r.0.store == w.store && r.0.started == w.started && r.0.closed == w.closed && r.0.launched == w.launched
    ensures r.1.Some? ==> r.1.value.target == Addr(t)
  {
    if !a.wait then (w, None)
    else
      var (w1, key) := Mint(w, a.key);
      if key.None? then (w1, None)
      else
        var (w2, created) := CreateService(w1, WantSpec(job, t, key.value.secret), a.id);
        match created
        case Exists => AdoptExisting(w2, job, t, key.value, a, pick)
        case CreateFailed => (Expire(w2, key.value.id), None)
        case Created(id) => (w2, Some(GatewayRef(Addr(t), id, key.value.id, WantHash(job, t))))
  }

  datatype Updated = Vanished | UpdateFailed | Updated(ref: GatewayRef)

  /** updateGateway. */
  function UpdateGateway(w: World, job: Job, t: EgressTarget, ref: GatewayRef, a: UpdateAnswers): (r: (World, Updated))
    ensures r.0.store == w.store && r.0.started == w.started && r.0.closed == w.closed && r.0.launched == w.launched
    ensures r.1.Updated? ==> r.1.ref.target == Addr(t)
  {
    if !a.inspect then (w, UpdateFailed)
    else if ref.serviceId !in w.services then (w, Vanished)
    else if !a.wait then (w, UpdateFailed)
    else
      var (w1, key) := Mint(w, a.key);
      if key.None? then (w1, UpdateFailed)
      else
        var (w2, ok) := UpdateService(w1, ref.serviceId, w.services[ref.serviceId].version,
                                      WantSpec(job, t, key.value.secret), a.update);
        if !ok then (Expire(w2, key.value.id), UpdateFailed)
        else (if ref.keyId != key.value.id then Expire(w2, ref.keyId) else w2,
              Updated(GatewayRef(Addr(t), ref.serviceId, key.value.id, WantHash(job, t))))
  }

  // ---------- the set being reconciled ----------

  /** Mid-pass: the world, the working map `tracked`, and whether no error was collected. */
  datatype Pass = Pass(w: World, tracked: map<string, GatewayRef>, ok: bool)

  function StoreIndex(refs: seq<GatewayRef>): map<string, GatewayRef> {
    if refs == [] then map[]
    else StoreIndex(refs[..|refs| - 1])[refs[|refs| - 1].target := refs[|refs| - 1]]
  }

  function KnownServices(tracked: map<string, GatewayRef>): set<string> {
    set a | a in tracked :: tracked[a].serviceId
  }

  /** Fold in running gateways whose service and address are not yet accounted for. */
  function Adopt(w: World, out: map<string, GatewayRef>, known: set<string>, todo: set<string>, pick: Picker): map<string, GatewayRef>
    requires todo <= w.services.Keys
    decreases todo
  {
    if todo == {} then out
    else
      var s := pick(todo);
      var addr := TargetAddr(w.services[s].spec);
      var out' :=
        if s in known || addr == "" || addr in out then out
        else out[addr := GatewayRef(addr, s, "", LiveHash(w.services[s].spec))];
      Adopt(w, out', known, todo - {s}, pick)
  }

  /** trackedGateways, once the listing has succeeded. */
  function Tracked(w: World, app: string, pick: Picker): map<string, GatewayRef> {
    var out := StoreIndex(EntryOf(w, app).gateways);
    Adopt(w, out, KnownServices(out), Gateways(w, app), pick)
  }

  /** The fast-path test, as the code computes it: hash, count, then inclusion. */
  predicate FastGate(job: Job, prev: Entry, tracked: map<string, GatewayRef>, desired: map<string, EgressTarget>) {
    && prev.gatewayHash == WholeHash(job.eg, job.image)
    && |tracked| == |desired|
    && forall a :: a in desired ==> a in tracked
  }

  function RemoveOne(p: Pass, addr: string, a: RemoveAnswers): Pass
    requires addr in p.tracked
  {
    var (w, ok) := RemoveGateway(p.w, p.tracked[addr], a);
    if ok then Pass(w, p.tracked - {addr}, p.ok) else Pass(w, p.tracked, false)
  }

  /** Remove the gateways whose address is not in `keep`. */
  function RemoveLoop(p: Pass, keep: set<string>, todo: set<string>, ans: Answers): Pass
    requires todo <= p.tracked.Keys
    decreases todo
  {
    if todo == {} then p
    else
      var addr := ans.pick(todo);
      var p' := if addr in keep then p else RemoveOne(p, addr, ans.remove(addr));
      RemoveLoop(p', keep, todo - {addr}, ans)
  }

  function CreateInto(p: Pass, job: Job, t: EgressTarget, a: CreateAnswers, pick: Picker): Pass {
    var (w, created) := CreateGateway(p.w, job, t, a, pick);
    if created.None? then Pass(w, p.tracked, false) else Pass(w, p.tracked[Addr(t) := created.value], p.ok)
  }

  /** One desired target: create it, leave it, update it in place, or recreate it. */
  function PutOne(p: Pass, job: Job, t: EgressTarget, a: PutAnswers, pick: Picker): Pass {
    var addr := Addr(t);
    if addr !in p.tracked then CreateInto(p, job, t, a.create, pick)
    else if p.tracked[addr].hash == WantHash(job, t) then p
    else
      var (w, updated) := UpdateGateway(p.w, job, t, p.tracked[addr], a.update);
      match updated
      case UpdateFailed => Pass(w, p.tracked - {addr}, false)
      case Vanished => CreateInto(Pass(w, p.tracked - {addr}, p.ok), job, t, a.create, pick)
      case Updated(ref) => Pass(w, p.tracked[addr := ref], p.ok)
  }

  function PutLoop(p: Pass, job: Job, desired: map<string, EgressTarget>, todo: set<string>, ans: Answers): Pass
    requires todo <= desired.Keys
    decreases todo
  {
    if todo == {} then p
    else
      var addr := ans.pick(todo);
      PutLoop(PutOne(p, job, desired[addr], ans.put(addr), ans.pick), job, desired, todo - {addr}, ans)
  }

  function Enumerate(s: set<string>, pick: Picker): seq<string>
    decreases s
  {
    if s == {} then [] else [pick(s)] + Enumerate(s - {pick(s)}, pick)
  }

  function Values(m: map<string, GatewayRef>, keys: seq<string>): seq<GatewayRef> {
    if keys == [] then []
    else if keys[0] !in m then Values(m, keys[1..])
    else [m[keys[0]]] + Values(m, keys[1..])
  }

  lemma {:induction false} EnumerateKeys(s: set<string>, pick: Picker)
    ensures multiset(Enumerate(s, pick)) == multiset(s)
    decreases s
  {
    if s != {} {
      var x := pick(s);
      EnumerateKeys(s - {x}, pick);
      assert multiset(s) == multiset(s - {x}) + multiset{x};
    }
  }

  lemma SortedKeys(s: set<string>, pick: Picker)
    ensures multiset(Sort(Leq, Enumerate(s, pick))) == multiset(s)
    ensures Sorted(Leq, Sort(Leq, Enumerate(s, pick)))
    ensures forall k :: k in Sort(Leq, Enumerate(s, pick)) <==> k in s
  {
    StringOrder();
    EnumerateKeys(s, pick);
    SortSorts(Leq, Enumerate(s, pick));
    assert forall k :: k in Sort(Leq, Enumerate(s, pick)) <==> k in multiset(s);
  }

  /** sortedGateways: the map's keys are its refs' targets. */
  function SortedGateways(m: map<string, GatewayRef>, pick: Picker): seq<GatewayRef> {
    Values(m, Sort(Leq, Enumerate(m.Keys, pick)))
  }

  /** The diff: removals, then creates and updates, then the new record. */
  function SlowPath(w: World, job: Job, tracked: map<string, GatewayRef>, ans: Answers): Step {
    var desired := Desired(job.eg.targets);
    var p1 := RemoveLoop(Pass(w, tracked, true), desired.Keys, tracked.Keys, ans);
    var p2 := PutLoop(p1, job, desired, desired.Keys, ans);
    var next := EntryOf(w, job.app).(gateways := SortedGateways(p2.tracked, ans.pick),
                                     gatewayHash := WholeHash(job.eg, job.image));
    Step(Put(p2.w, job.app, next), p2.ok)
  }

  /** reconcileEgress for a service that does egress. */
  function EgressPass(w: World, job: Job, ans: Answers): Step {
    if job.image == "" || !ans.list then Step(w, false)
    else
      var prev := EntryOf(w, job.app);
      var tracked := Tracked(w, job.app, ans.pick);
      if FastGate(job, prev, tracked, Desired(job.eg.targets)) then Step(Put(w, job.app, prev), true)
      else SlowPath(w, job, tracked, ans)
  }

  // ---------- teardown ----------

  function RemoveAll(w: World, refs: seq<GatewayRef>, remove: string -> RemoveAnswers): Step
    decreases refs
  {
    if refs == [] then Step(w, true)
    else
      var (w1, ok) := RemoveGateway(w, refs[0], remove(refs[0].target));
      var rest := RemoveAll(w1, refs[1..], remove);
      Step(rest.w, ok && rest.ok)
  }

  /** teardownEgress. */
  function TeardownEgress(w: World, app: string, remove: string -> RemoveAnswers): Step {
    var prev := EntryOf(w, app);
    if prev.gateways == [] then Step(w, true)
    else
      var s := RemoveAll(w, prev.gateways, remove);
      var next := prev.(gateways := [], gatewayHash := NoSetHash);
      Step(if prev.proxy.None? then Delete(s.w, app) else Put(s.w, app, next), s.ok)
  }
}
