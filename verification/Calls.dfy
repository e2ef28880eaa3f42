/** A pass as the calls it makes, one at a time: what each call does to the world and
    answers, and what the pass does next. Run to its end without interruption, the program
    is the pass of Reconcile. */
module Calls {
  import opened Text
  import opened Targets
  import opened Gateway
  import opened Labels
  import opened World
  import opened Egress
  import opened Reconcile

  /** The atomic calls: the store's, under its lock, and one request each to Docker,
      Headscale and tsnet, with the answer the other side gives. */
  datatype Call =
    | GetEntry(id: string) | PutEntry(id: string, e: Entry) | DropEntry(id: string)
    | Inspect(id: string) | ListMarked(app: string) | ListNamed(name: string)
    | Create(spec: ServiceSpec, made: Option<string>)
    | Update(id: string, version: nat, spec: ServiceSpec, ok: bool) | Remove(id: string, ok: bool)
    | MintKey(key: Option<Key>) | ExpireKey(spent: string)
    | Start(launch: Launch, proxy: Option<nat>) | Close(handle: nat)

  datatype Reply =
    | NoReply | Stored(e: Entry) | Found(v: map<string, Service>) | Flag(ok: bool)
    | Made(c: Created) | Minted(key: Option<Key>) | Started(proxy: Option<nat>)

  function Perform(w: World, c: Call): (World, Reply) {
    match c
    case GetEntry(id) => (w, Stored(EntryOf(w, id)))
    case PutEntry(id, e) => (Put(w, id, e), NoReply)
    case DropEntry(id) => (Delete(w, id), NoReply)
    case Inspect(id) => (w, Found(map s | s in w.services && s == id :: w.services[s]))
    case ListMarked(app) => (w, Found(map s | s in w.services && MarkedFor(w.services[s].spec, app) :: w.services[s]))
    case ListNamed(name) => (w, Found(map s | s in w.services && w.services[s].spec.name == name :: w.services[s]))
    case Create(spec, made) => var (w', c) := CreateService(w, spec, made); (w', Made(c))
    case Update(id, version, spec, ok) => var (w', done) := UpdateService(w, id, version, spec, ok); (w', Flag(done))
    case Remove(id, ok) => var (w', done) := RemoveService(w, id, ok); (w', Flag(done))
    case MintKey(key) => var (w', k) := Mint(w, key); (w', Minted(k))
    case ExpireKey(spent) => (Expire(w, spent), NoReply)
    case Start(launch, proxy) => var (w', p) := StartProxy(w, launch, proxy); (w', Started(p))
    case Close(handle) => (CloseProxy(w, handle), NoReply)
  }

  /** What is left of a pass: nothing but its result, or a call and what follows its reply. */
  datatype Prog = Done(ok: bool) | Do(call: Call, next: Reply -> Prog)

  // ---------- single gateways ----------

  function RemoveGatewayProg(ref: GatewayRef, a: RemoveAnswers, k: bool -> Prog): Prog {
    if !a.wait then k(false)
    else
      Do(Remove(ref.serviceId, a.removed), (r: Reply) =>
        if r != Flag(true) then k(false)
        else if ref.keyId == "" then k(true)
        else if !a.waitExpire then k(false)
        else Do(ExpireKey(ref.keyId), (_: Reply) => k(true)))
  }

  function AdoptProg(job: Job, t: EgressTarget, key: Key, a: CreateAnswers, pick: Picker, k: Option<GatewayRef> -> Prog): Prog {
    var spec := WantSpec(job, t, key.secret);
    var giveUp := Do(ExpireKey(key.id), (_: Reply) => k(None));
    Do(ListNamed(spec.name), (r: Reply) =>
      if !r.Found? || a.lookup != LookupHit || r.v == map[] then giveUp
      else
        var existing := pick(r.v.Keys);
        Do(Update(existing, r.v[existing].version, spec, a.update), (r2: Reply) =>
          if r2 == Flag(true) then k(Some(GatewayRef(Addr(t), existing, key.id, WantHash(job, t)))) else giveUp))
  }

  function CreateProg(job: Job, t: EgressTarget, a: CreateAnswers, pick: Picker, k: Option<GatewayRef> -> Prog): Prog {
    if !a.wait then k(None)
    else
      Do(MintKey(a.key), (r: Reply) =>
        if !r.Minted? || r.key.None? then k(None)
        else
          var key := r.key.value;
          Do(Create(WantSpec(job, t, key.secret), a.id), (r2: Reply) =>
            if r2 == Made(Exists) then AdoptProg(job, t, key, a, pick, k)
            else if r2.Made? && r2.c.Created? then k(Some(GatewayRef(Addr(t), r2.c.id, key.id, WantHash(job, t))))
            else Do(ExpireKey(key.id), (_: Reply) => k(None))))
  }

  function UpdateProg(job: Job, t: EgressTarget, ref: GatewayRef, a: UpdateAnswers, k: Updated -> Prog): Prog {
    if !a.inspect then k(UpdateFailed)
    else
      Do(Inspect(ref.serviceId), (r: Reply) =>
        if !r.Found? || ref.serviceId !in r.v then k(Vanished)
        else if !a.wait then k(UpdateFailed)
        else
          Do(MintKey(a.key), (r2: Reply) =>
            if !r2.Minted? || r2.key.None? then k(UpdateFailed)
            else
              var key := r2.key.value;
              var ref' := GatewayRef(Addr(t), ref.serviceId, key.id, WantHash(job, t));
              Do(Update(ref.serviceId, r.v[ref.serviceId].version, WantSpec(job, t, key.secret), a.update), (r3: Reply) =>
                if r3 != Flag(true) then Do(ExpireKey(key.id), (_: Reply) => k(UpdateFailed))
                else if ref.keyId != key.id then Do(ExpireKey(ref.keyId), (_: Reply) => k(Updated(ref')))
                else k(Updated(ref')))))
  }

  // ---------- the loops ----------

  type Refs = map<string, GatewayRef>

  function RemoveLoopProg(tracked: Refs, ok: bool, keep: set<string>, todo: set<string>, ans: Answers, k: (Refs, bool) -> Prog): Prog
    decreases todo
  {
    if todo == {} then k(tracked, ok)
    else
      var addr := ans.pick(todo);
      if addr in keep || addr !in tracked then RemoveLoopProg(tracked, ok, keep, todo - {addr}, ans, k)
      else
        RemoveGatewayProg(tracked[addr], ans.remove(addr), (done: bool) =>
          RemoveLoopProg(if done then tracked - {addr} else tracked, ok && done, keep, todo - {addr}, ans, k))
  }

  function CreateIntoProg(tracked: Refs, ok: bool, job: Job, t: EgressTarget, a: CreateAnswers, pick: Picker, k: (Refs, bool) -> Prog): Prog {
    CreateProg(job, t, a, pick, (r: Option<GatewayRef>) =>
      if r.None? then k(tracked, false) else k(tracked[Addr(t) := r.value], ok))
  }

  function PutOneProg(tracked: Refs, ok: bool, job: Job, t: EgressTarget, a: PutAnswers, pick: Picker, k: (Refs, bool) -> Prog): Prog {
    var addr := Addr(t);
    if addr !in tracked then CreateIntoProg(tracked, ok, job, t, a.create, pick, k)
    else if tracked[addr].hash == WantHash(job, t) then k(tracked, ok)
    else
      UpdateProg(job, t, tracked[addr], a.update, (u: Updated) =>
        match u
        case UpdateFailed => k(tracked - {addr}, false)
        case Vanished => CreateIntoProg(tracked - {addr}, ok, job, t, a.create, pick, k)
        case Updated(ref) => k(tracked[addr := ref], ok))
  }

  function PutLoopProg(tracked: Refs, ok: bool, job: Job, desired: map<string, EgressTarget>, todo: set<string>, ans: Answers, k: (Refs, bool) -> Prog): Prog
    requires todo <= desired.Keys
    decreases todo
  {
    if todo == {} then k(tracked, ok)
    else
      var addr := ans.pick(todo);
      PutOneProg(tracked, ok, job, desired[addr], ans.put(addr), ans.pick, (tracked': Refs, ok': bool) =>
        PutLoopProg(tracked', ok', job, desired, todo - {addr}, ans, k))
  }

  const NOWHERE := World(map[], map[], {}, {}, {}, {}, {}, multiset{}, map[])

  /** trackedGateways over what was listed. */
  function TrackedIn(prev: Entry, v: map<string, Service>, pick: Picker): Refs {
    var out := StoreIndex(prev.gateways);
    Adopt(NOWHERE.(services := v), out, KnownServices(out), v.Keys, pick)
  }

  function EgressProg(job: Job, ans: Answers, k: bool -> Prog): Prog {
    if job.image == "" then k(false)
    else
      Do(GetEntry(job.app), (r: Reply) =>
        if !r.Stored? || !ans.list then k(false)
        else Do(ListMarked(job.app), (r2: Reply) =>
          if !r2.Found? then k(false) else DiffProg(job, r.e, TrackedIn(r.e, r2.v, ans.pick), ans, k)))
  }

  function DiffProg(job: Job, prev: Entry, tracked: Refs, ans: Answers, k: bool -> Prog): Prog {
    var desired := Desired(job.eg.targets);
    if FastGate(job, prev, tracked, desired) then Do(PutEntry(job.app, prev), (_: Reply) => k(true))
    else
      RemoveLoopProg(tracked, true, desired.Keys, tracked.Keys, ans, (tracked1: Refs, ok1: bool) =>
        PutLoopProg(tracked1, ok1, job, desired, desired.Keys, ans, (tracked2: Refs, ok2: bool) =>
          RecordProg(job, prev, tracked2, ok2, ans, k)))
  }

  function RecordProg(job: Job, prev: Entry, tracked: Refs, ok: bool, ans: Answers, k: bool -> Prog): Prog {
    Do(PutEntry(job.app, prev.(gateways := SortedGateways(tracked, ans.pick), gatewayHash := WholeHash(job.eg, job.image))),
       (_: Reply) => k(ok))
  }

  // ---------- ingress and teardown ----------

  function RemoveAllProg(refs: seq<GatewayRef>, remove: string -> RemoveAnswers, ok: bool, k: bool -> Prog): Prog
    decreases refs
  {
    if refs == [] then k(ok)
    else
      RemoveGatewayProg(refs[0], remove(refs[0].target), (done: bool) => RemoveAllProg(refs[1..], remove, ok && done, k))
  }

  function StoreProg(id: string, drop: bool, e: Entry, k: Prog): Prog {
    Do(if drop then DropEntry(id) else PutEntry(id, e), (_: Reply) => k)
  }

  function TeardownEgressProg(app: string, remove: string -> RemoveAnswers, k: bool -> Prog): Prog {
    Do(GetEntry(app), (r: Reply) =>
      if !r.Stored? || r.e.gateways == [] then k(true) else RemoveAllProg(r.e.gateways, remove, true, EgressGone(app, r.e, k)))
  }

  function EgressGone(app: string, prev: Entry, k: bool -> Prog): bool -> Prog {
    (ok: bool) => StoreProg(app, prev.proxy.None?, prev.(gateways := [], gatewayHash := NoSetHash), k(ok))
  }

  function ClosedProg(proxy: Option<nat>, k: Prog): Prog {
    if proxy.None? then k else Do(Close(proxy.value), (_: Reply) => k)
  }

  function TeardownIngressProg(id: string, a: IngressAnswers, k: bool -> Prog): Prog {
    Do(GetEntry(id), (r: Reply) =>
      if !r.Stored? || (r.e.proxy.None? && r.e.preAuthKey == "") then k(true)
      else ClosedProg(r.e.proxy, IngressGone(id, r.e, a, k)))
  }

  function IngressGone(id: string, prev: Entry, a: IngressAnswers, k: bool -> Prog): Prog {
    if prev.preAuthKey != "" && !a.wait then k(false)
    else
      var store := StoreProg(id, prev.gateways == [], prev.(proxy := None, specHash := NoProxyHash, preAuthKey := ""),
                             k((prev.proxy.None? || a.close) && (prev.preAuthKey == "" || a.expire)));
      Do(ExpireKey(prev.preAuthKey), (_: Reply) => store)
  }

  function IngressProg(id: string, tgt: Target, cfg: Config, a: IngressAnswers, k: bool -> Prog): Prog {
    if !tgt.ingress then TeardownIngressProg(id, a, k)
    else
      var hash := HashOf(ProxyConfigFor(tgt, cfg));
      Do(GetEntry(id), (r: Reply) =>
        if !r.Stored? then k(false)
        else if r.e.specHash == hash && r.e.proxy.Some? then Do(PutEntry(id, r.e), (_: Reply) => k(true))
        else if !a.wait then k(false)
        else RotateProg(id, r.e, ProxyConfigFor(tgt, cfg), a, k))
  }

  function RotateProg(id: string, prev: Entry, config: ProxyConfig, a: IngressAnswers, k: bool -> Prog): Prog {
    Do(MintKey(a.key), (r: Reply) =>
      if !r.Minted? || r.key.None? then k(false)
      else
        Do(Start(Launch(config, r.key.value.secret), a.start), (r2: Reply) =>
          if !r2.Started? || r2.proxy.None? then Do(ExpireKey(r.key.value.id), (_: Reply) => k(false))
          else
            Do(PutEntry(id, prev.(proxy := r2.proxy, specHash := HashOf(config), preAuthKey := r.key.value.id)), (_: Reply) =>
              ClosedProg(prev.proxy, if prev.proxy.None? then k(true) else Do(ExpireKey(prev.preAuthKey), (_: Reply) => k(true))))))
  }

  // ---------- the whole pass ----------

  function TeardownProg(id: string, s: Script, k: bool -> Prog): Prog {
    TeardownIngressProg(id, s.ingress, (ok1: bool) =>
      TeardownEgressProg(id, s.egress.remove, (ok2: bool) =>
        Do(DropEntry(id), (_: Reply) => k(ok1 && ok2))))
  }

  function EgressStepProg(d: Daemon, id: string, tgt: Target, ans: Answers, k: bool -> Prog): Prog {
    if tgt.egress.None? then TeardownEgressProg(id, ans.remove, k)
    else EgressProg(Job(d.cfg, id, tgt.egress.value, d.image), ans, k)
  }

  function ReconcileProg(d: Daemon, id: string, s: Script): Prog {
    if !s.inspect then Done(false)
    else Do(Inspect(id), (r: Reply) => if !r.Found? then Done(false) else InspectedProg(d, id, s, r.v))
  }

  function InspectedProg(d: Daemon, id: string, s: Script, v: map<string, Service>): Prog {
    if id !in v then TeardownProg(id, s, (ok: bool) => Done(ok))
    else if IsGateway(v[id].spec) then Done(true)
    else if s.networks.None? then Done(false)
    else match ParseLabels(d.rules, v[id].spec, s.networks.value)
      case Malformed(_) => TeardownProg(id, s, (ok: bool) => Done(false))
      case Disabled => TeardownProg(id, s, (ok: bool) => Done(ok))
      case Enabled(tgt) =>
        IngressProg(id, tgt, d.cfg, s.ingress, (ok1: bool) =>
          EgressStepProg(d, id, tgt, s.egress, (ok2: bool) => Done(ok1 && ok2)))
  }
}
