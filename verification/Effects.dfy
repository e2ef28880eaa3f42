/** What the calls of a pass change and what their answers depend on. Calls of passes for
    different services commute as long as gateway names are separated between apps. */
module Effects {
  import opened Text
  import opened Gateway
  import opened World
  import opened Reconcile
  import opened Mirror
  import opened Ownership
  import opened Calls

  // ---------- what a call changes ----------

  /** Entries written and dropped, services written and dropped, new IDs, keys, proxies. */
  datatype Effect = Effect(
    entries: map<string, Entry>, gone: set<string>, puts: map<string, Service>, drops: set<string>,
    ids: set<string>, minted: set<string>, expired: set<string>, started: set<nat>, closed: multiset<nat>, launched: map<nat, Launch>)

  const NONE := Effect(map[], {}, map[], {}, {}, {}, {}, {}, multiset{}, map[])

  function EffectOf(w: World, c: Call): Effect {
    match c
    case PutEntry(id, e) => NONE.(entries := map[id := e])
    case DropEntry(id) => NONE.(gone := {id})
    case Create(spec, made) =>
      (match CreateService(w, spec, made).1
       case Created(id) => NONE.(puts := map[id := Service(1, spec)], ids := {id})
       case Exists => NONE
       case CreateFailed => NONE)
    case Update(id, version, spec, ok) =>
      if UpdateService(w, id, version, spec, ok).1 then NONE.(puts := map[id := Service(version + 1, spec)]) else NONE
    case Remove(id, ok) => if ok && id in w.services then NONE.(drops := {id}) else NONE
    case MintKey(key) => (match Mint(w, key).1 case None => NONE case Some(k) => NONE.(minted := {k.id}))
    case ExpireKey(spent) => if spent == "" then NONE else NONE.(expired := {spent})
    case Start(launch, proxy) =>
      (match StartProxy(w, launch, proxy).1
       case None => NONE
       case Some(p) => NONE.(started := {p}, launched := map[p := launch]))
    case Close(handle) => NONE.(closed := multiset{handle})
    case _ => NONE
  }

  function Change(w: World, e: Effect): World {
    World((w.store + e.entries) - e.gone, (w.services + e.puts) - e.drops, w.ids + e.ids, w.made + e.ids,
          w.minted + e.minted, w.expired + e.expired, w.started + e.started, w.closed + e.closed, w.launched + e.launched)
  }

  lemma NoChange(w: World)
    ensures Change(w, NONE) == w
  {
    assert (w.store + map[]) - {} == w.store && (w.services + map[]) - {} == w.services;
    assert w.closed + multiset{} == w.closed && w.launched + map[] == w.launched;
  }

  lemma PutChange<V>(m: map<string, V>, k: string, v: V)
    ensures (m + map[k := v]) - {} == m[k := v] && (m + map[]) - {k} == m - {k} && (m + map[]) - {} == m
  {
  }

  lemma PerformIs(w: World, c: Call)
    ensures Perform(w, c).0 == Change(w, EffectOf(w, c))
  {
    hide MarkedFor;
    hide CreateService;
    hide UpdateService;
    hide Change;
    NoChange(w);
    match c
    case PutEntry(id, e) => StoreChange(w, id, e);
    case DropEntry(id) => StoreChange(w, id, ZERO_ENTRY);
    case Create(spec, made) =>
      CreateServiceIs(w, spec, made);
      if made.Some? {
        ServiceChange(w, made.value, Service(1, spec));
      }
    case Update(id, version, spec, ok) =>
      UpdateServiceIs(w, id, version, spec, ok);
      ServiceChange(w, id, Service(version + 1, spec));
    case Remove(id, ok) =>
      assert id !in w.services ==> w.services - {id} == w.services;
      ServiceChange(w, id, Service(0, ServiceSpec("", map[], None, [], [], None)));
    case MintKey(key) => OtherChange(w, if key.Some? then key.value.id else "", 0, Launch(ProxyConfig("", "", [], "", "", []), ""));
    case ExpireKey(spent) => OtherChange(w, spent, 0, Launch(ProxyConfig("", "", [], "", "", []), ""));
    case Start(launch, proxy) => OtherChange(w, "", if proxy.Some? then proxy.value else 0, launch);
    case Close(handle) => OtherChange(w, "", handle, Launch(ProxyConfig("", "", [], "", "", []), ""));
    case _ =>
  }

  lemma StoreChange(w: World, id: string, e: Entry)
    ensures Change(w, NONE.(entries := map[id := e])) == Put(w, id, e) && Change(w, NONE.(gone := {id})) == Delete(w, id)
  {
    NoChange(w);
    PutChange(w.store, id, e);
  }

  lemma ServiceChange(w: World, id: string, v: Service)
    ensures Change(w, NONE.(puts := map[id := v])) == w.(services := w.services[id := v])
    ensures Change(w, NONE.(puts := map[id := v], ids := {id})) == w.(services := w.services[id := v], ids := w.ids + {id}, made := w.made + {id})
    ensures Change(w, NONE.(drops := {id})) == w.(services := w.services - {id})
  {
    NoChange(w);
    PutChange(w.services, id, v);
  }

  lemma OtherChange(w: World, key: string, p: nat, launch: Launch)
    ensures Change(w, NONE.(minted := {key})) == w.(minted := w.minted + {key})
    ensures Change(w, NONE.(expired := {key})) == w.(expired := w.expired + {key})
    ensures Change(w, NONE.(started := {p}, launched := map[p := launch])) == w.(started := w.started + {p}, launched := w.launched[p := launch])
    ensures Change(w, NONE.(closed := multiset{p})) == w.(closed := w.closed + multiset{p})
  {
    NoChange(w);
    assert w.launched + map[p := launch] == w.launched[p := launch];
  }

  lemma MapsCommute<V>(m: map<string, V>, p: map<string, V>, d: set<string>, p': map<string, V>, d': set<string>)
    requires p.Keys + d !! p'.Keys + d'
    ensures (((m + p) - d) + p') - d' == (((m + p') - d') + p) - d
  {
  }

  lemma ChangesCommute(w: World, e: Effect, f: Effect)
    requires e.entries.Keys + e.gone !! f.entries.Keys + f.gone && e.puts.Keys + e.drops !! f.puts.Keys + f.drops
    requires e.launched.Keys !! f.launched.Keys
    ensures Change(Change(w, e), f) == Change(Change(w, f), e)
  {
    MapsCommute(w.store, e.entries, e.gone, f.entries, f.gone);
    MapsCommute(w.services, e.puts, e.drops, f.puts, f.drops);
    AddsCommute(w.launched, e.launched, f.launched);
    SetsCommute(w.ids, e.ids, f.ids);
    SetsCommute(w.made, e.ids, f.ids);
    SetsCommute(w.minted, e.minted, f.minted);
    SetsCommute(w.expired, e.expired, f.expired);
    SetsCommute(w.started, e.started, f.started);
  }

  lemma AddsCommute<K, V>(m: map<K, V>, p: map<K, V>, q: map<K, V>)
    requires p.Keys !! q.Keys
    ensures m + p + q == m + q + p
  {
  }

  lemma SetsCommute<T>(s: set<T>, a: set<T>, b: set<T>)
    ensures s + a + b == s + b + a
  {
  }

  // ---------- whose calls they are ----------

  /** One running pass: its service, that service as Docker knows it, and what it will hear. */
  datatype Lane = Lane(app: string, own: Option<Service>, script: Script)

  predicate IsKey(key: Option<Key>, k: string) { key.Some? && key.value.id == k }

  ghost predicate DrawsKey(s: Script, k: string) {
    IsKey(s.ingress.key, k) || exists a :: IsKey(s.egress.put(a).update.key, k) || IsKey(s.egress.put(a).create.key, k)
  }

  ghost predicate DrawsId(s: Script, id: string) { exists a :: s.egress.put(a).create.id == Some(id) }

  ghost predicate DrawsProxy(s: Script, p: nat) { s.ingress.start == Some(p) }

  /** Headscale, Docker and tsnet hand out no ID to two passes. */
  ghost predicate DrawApart(s: Script, s': Script) {
    && (forall k :: !(DrawsKey(s, k) && DrawsKey(s', k)))
    && (forall id :: !(DrawsId(s, id) && DrawsId(s', id)))
    && (forall p :: !(DrawsProxy(s, p) && DrawsProxy(s', p)))
  }

  /** A spec of the app's gateways, by mark and by name. */
  ghost predicate OwnSpec(spec: ServiceSpec, app: string, owner: Owner) {
    Mark(spec) == Some(app) && owner(spec.name) == Some(app)
  }

  /** The call concerns the app's own entry, its own service, services in `refs`, or gateways
      by a name or mark of its own, and draws on its own answers. */
  ghost predicate OwnCall(c: Call, l: Lane, owner: Owner, refs: set<string>) {
    match c
    case GetEntry(id) => id == l.app
    case PutEntry(id, e) => id == l.app && RefIds(e) <= refs
    case DropEntry(id) => id == l.app
    case Inspect(id) => id == l.app || id in refs
    case ListMarked(app) => app == l.app
    case ListNamed(name) => owner(name) == Some(l.app)
    case Create(spec, made) => OwnSpec(spec, l.app, owner) && (made.Some? ==> DrawsId(l.script, made.value))
    case Update(id, _, spec, _) => id in refs && OwnSpec(spec, l.app, owner)
    case Remove(id, _) => id in refs
    case MintKey(key) => key.Some? ==> DrawsKey(l.script, key.value.id)
    case ExpireKey(_) => true
    case Start(_, proxy) => proxy.Some? ==> DrawsProxy(l.script, proxy.value)
    case Close(_) => true
  }

  /** The services a reply lets the pass refer to from then on. */
  function Gains(c: Call, r: Reply): set<string> {
    match r
    case Stored(e) => RefIds(e)
    case Found(v) => if c.Inspect? then {} else v.Keys
    case Made(c) => (match c case Created(id) => {id} case Exists => {} case CreateFailed => {})
    case _ => {}
  }

  /** A service the app may refer to: handed out, and marked for it if it runs. */
  ghost predicate Claim(w: World, app: string, s: string) {
    s in w.ids && (s in w.services ==> Mark(w.services[s].spec) == Some(app))
  }

  /** What a running pass relies on. */
  ghost predicate Holds(w: World, l: Lane, owner: Owner, refs: set<string>) {
    && w.services.Keys <= w.ids && Marked(w.services, owner) && l.app in w.ids
    && (if l.own.Some? then l.app in w.services && w.services[l.app] == l.own.value && Mark(l.own.value.spec).None?
        else l.app !in w.services)
    && (forall s :: s in refs ==> Claim(w, l.app, s))
    && (forall s :: s in RefIds(EntryOf(w, l.app)) ==> Claim(w, l.app, s))
  }

  /** The effect stays with the app. */
  ghost predicate Within(e: Effect, w: World, l: Lane, owner: Owner) {
    && e.entries.Keys + e.gone <= {l.app}
    && (forall s :: s in e.puts.Keys + e.drops ==>
          (s in w.services && Mark(w.services[s].spec) == Some(l.app)) || (s !in w.ids && DrawsId(l.script, s) && s in e.ids))
    && (forall s :: s in e.puts ==> OwnSpec(e.puts[s].spec, l.app, owner))
    && (forall s :: s in e.ids ==> s !in w.ids && DrawsId(l.script, s) && s in e.puts)
    && (forall k :: k in e.minted ==> DrawsKey(l.script, k))
    && (forall p :: p in e.started ==> DrawsProxy(l.script, p)) && e.launched.Keys <= e.started
    && (forall s :: s in e.puts && s !in w.services ==> s in e.ids)
  }

  lemma OwnEffect(w: World, c: Call, l: Lane, owner: Owner, refs: set<string>)
    requires Holds(w, l, owner, refs) && OwnCall(c, l, owner, refs)
    ensures Within(EffectOf(w, c), w, l, owner)
  {
    hide Mark;
    hide MarkedFor;
    hide DrawsKey;
    hide DrawsId;
    hide DrawsProxy;
    hide RefIds;
  }

  /** Two worlds look the same to the pass. */
  ghost predicate Agree(w: World, u: World, l: Lane, refs: set<string>) {
    && EntryOf(w, l.app) == EntryOf(u, l.app)
    && (forall s :: s in refs || s == l.app ==> (s in w.services <==> s in u.services) && (s in w.services ==> w.services[s] == u.services[s]))
    && (forall s :: (s in w.services && Mark(w.services[s].spec) == Some(l.app)) <==> (s in u.services && Mark(u.services[s].spec) == Some(l.app)))
    && (forall s :: s in w.services && Mark(w.services[s].spec) == Some(l.app) ==> s in u.services && u.services[s] == w.services[s])
    && (forall id :: DrawsId(l.script, id) ==> (id in w.ids <==> id in u.ids))
    && (forall k :: DrawsKey(l.script, k) ==> (k in w.minted <==> k in u.minted))
    && (forall p :: DrawsProxy(l.script, p) ==> (p in w.started <==> p in u.started))
  }

  lemma NamedOwn(w: World, u: World, l: Lane, owner: Owner, refs: set<string>, name: string)
    requires Agree(w, u, l, refs) && Marked(w.services, owner) && Marked(u.services, owner) && owner(name) == Some(l.app)
    ensures Named(w, name) == Named(u, name)
    ensures Perform(w, ListNamed(name)).1 == Perform(u, ListNamed(name)).1
  {
    hide Mark;
    hide DrawsKey;
    hide DrawsId;
    hide DrawsProxy;
    forall s ensures s in Named(w, name) <==> s in Named(u, name) {
      assert s in w.services ==> Mark(w.services[s].spec) == owner(w.services[s].spec.name);
      assert s in u.services ==> Mark(u.services[s].spec) == owner(u.services[s].spec.name);
    }
    var v, v' := Perform(w, ListNamed(name)).1.v, Perform(u, ListNamed(name)).1.v;
    assert v.Keys == Named(w, name) && v'.Keys == Named(u, name);
    forall s | s in v ensures v[s] == v'[s] {
      assert s in w.services && Mark(w.services[s].spec) == Some(l.app);
    }
    assert v == v';
  }

  lemma MarkedOwn(w: World, u: World, l: Lane, refs: set<string>)
    requires Agree(w, u, l, refs)
    ensures Perform(w, ListMarked(l.app)).1 == Perform(u, ListMarked(l.app)).1
  {
    hide Mark;
    hide MarkedFor;
    hide DrawsKey;
    hide DrawsId;
    hide DrawsProxy;
    var v, v' := Perform(w, ListMarked(l.app)).1.v, Perform(u, ListMarked(l.app)).1.v;
    forall s ensures s in v <==> s in v' {
      MarkIs(w.services, l.app, s);
      MarkIs(u.services, l.app, s);
    }
    forall s | s in v ensures v[s] == v'[s] {
      MarkIs(w.services, l.app, s);
    }
    assert v == v';
  }

  lemma MarkIs(v: Services, app: string, s: string)
    ensures s in v ==> (MarkedFor(v[s].spec, app) <==> Mark(v[s].spec) == Some(app))
  {
  }

  lemma InspectOwn(w: World, u: World, l: Lane, refs: set<string>, id: string)
    requires Agree(w, u, l, refs) && (id == l.app || id in refs)
    ensures Perform(w, Inspect(id)).1 == Perform(u, Inspect(id)).1
  {
    hide Mark;
    hide DrawsKey;
    hide DrawsId;
    hide DrawsProxy;
    assert Perform(w, Inspect(id)).1.v == Perform(u, Inspect(id)).1.v;
  }

  /** So the call does and answers the same in both. */
  lemma SameEffect(w: World, u: World, c: Call, l: Lane, owner: Owner, refs: set<string>)
    requires Agree(w, u, l, refs) && Marked(w.services, owner) && Marked(u.services, owner) && OwnCall(c, l, owner, refs)
    ensures EffectOf(w, c) == EffectOf(u, c) && Perform(w, c).1 == Perform(u, c).1
  {
    hide Mark;
    hide MarkedFor;
    hide Named;
    hide DrawsKey;
    hide DrawsId;
    hide DrawsProxy;
    hide RefIds;
    hide Marked;
    match c
    case ListMarked(_) => MarkedOwn(w, u, l, refs);
    case ListNamed(name) => NamedOwn(w, u, l, owner, refs, name);
    case Inspect(id) => InspectOwn(w, u, l, refs, id);
    case Create(spec, _) => NamedOwn(w, u, l, owner, refs, spec.name);
    case Update(_, _, spec, _) => NamedOwn(w, u, l, owner, refs, spec.name);
    case _ =>
  }

  /** A service another app's effect leaves alone: one of this app's, or one it may refer to. */
  lemma OthersLeave(w: World, e: Effect, l: Lane, m: Lane, owner: Owner, refs: set<string>, s: string)
    requires Holds(w, l, owner, refs) && Within(e, w, m, owner) && l.app != m.app
    requires s in refs || s == l.app || (s in w.services && Mark(w.services[s].spec) == Some(l.app))
    ensures var u := Change(w, e); (s in w.services <==> s in u.services) && (s in w.services ==> w.services[s] == u.services[s])
  {
    hide Mark;
    hide DrawsKey;
    hide DrawsId;
    hide DrawsProxy;
    hide RefIds;
    hide Marked;
    assert s !in e.puts.Keys + e.drops;
  }

  /** Another app's effect is invisible. */
  lemma OthersAgree(w: World, e: Effect, l: Lane, m: Lane, owner: Owner, refs: set<string>)
    requires Holds(w, l, owner, refs) && Within(e, w, m, owner) && l.app != m.app && DrawApart(l.script, m.script)
    ensures Agree(w, Change(w, e), l, refs)
  {
    hide Mark;
    hide DrawsKey;
    hide DrawsId;
    hide DrawsProxy;
    hide Holds;
    var u := Change(w, e);
    assert l.app in w.store <==> l.app in u.store;
    forall s | s in refs || s == l.app || (s in w.services && Mark(w.services[s].spec) == Some(l.app))
      ensures (s in w.services <==> s in u.services) && (s in w.services ==> w.services[s] == u.services[s]) {
      OthersLeave(w, e, l, m, owner, refs, s);
    }
  }

  lemma StillMarked(w: World, e: Effect, m: Lane, owner: Owner)
    requires Marked(w.services, owner) && w.services.Keys <= w.ids && Within(e, w, m, owner)
    ensures Marked(Change(w, e).services, owner) && Change(w, e).services.Keys <= Change(w, e).ids
  {
    hide Mark;
    hide DrawsKey;
    hide DrawsId;
    hide DrawsProxy;
  }

  /** The pass's footing survives another app's effect. */
  lemma OthersKeep(w: World, e: Effect, l: Lane, m: Lane, owner: Owner, refs: set<string>)
    requires Holds(w, l, owner, refs) && Within(e, w, m, owner) && l.app != m.app && DrawApart(l.script, m.script)
    ensures Holds(Change(w, e), l, owner, refs)
  {
    hide Mark;
    hide DrawsKey;
    hide DrawsId;
    hide DrawsProxy;
    hide RefIds;
    hide Marked;
    StillMarked(w, e, m, owner);
    var u := Change(w, e);
    assert EntryOf(u, l.app) == EntryOf(w, l.app);
    forall s | Claim(w, l.app, s) ensures Claim(u, l.app, s) {}
  }

  /** The replies Docker and the store can give the pass. */
  ghost predicate Legal(c: Call, r: Reply, l: Lane) {
    match c
    case GetEntry(_) => r.Stored?
    case Inspect(id) => r.Found? && (id == l.app ==> r.v == if l.own.Some? then map[l.app := l.own.value] else map[])
    case ListMarked(_) => r.Found?
    case ListNamed(_) => r.Found?
    case Create(_, _) => r.Made?
    case Update(_, _, _, _) => r.Flag?
    case Remove(_, _) => r.Flag?
    case MintKey(_) => r.Minted?
    case Start(_, _) => r.Started?
    case _ => r.NoReply?
  }

  lemma RepliesLegal(w: World, c: Call, l: Lane, owner: Owner, refs: set<string>)
    requires Holds(w, l, owner, refs)
    ensures Legal(c, Perform(w, c).1, l)
  {
    hide Mark;
    hide MarkedFor;
    hide RefIds;
    hide Marked;
    hide Claim;
    if c.Inspect? && c.id == l.app {
      assert Perform(w, c).1.v == if l.own.Some? then map[l.app := l.own.value] else map[];
    }
  }

  lemma GainsAre(w: World, c: Call, l: Lane, owner: Owner, refs: set<string>, s: string)
    requires Holds(w, l, owner, refs) && OwnCall(c, l, owner, refs) && s in Gains(c, Perform(w, c).1)
    ensures Claim(Perform(w, c).0, l.app, s)
  {
    hide Mark;
    hide MarkedFor;
    hide RefIds;
    hide Named;
    hide DrawsKey;
    hide DrawsId;
    hide DrawsProxy;
    if s in w.services {
      MarkIs(w.services, l.app, s);
    }
  }

  /** A pass's own call: its footing stays, and covers what the reply showed it. */
  lemma OwnKeeps(w: World, c: Call, l: Lane, owner: Owner, refs: set<string>)
    requires Holds(w, l, owner, refs) && OwnCall(c, l, owner, refs)
    ensures var (w', r) := Perform(w, c);
            Holds(w', l, owner, refs + Gains(c, r))
  {
    hide Mark;
    hide MarkedFor;
    hide RefIds;
    hide Gains;
    hide Perform;
    hide EffectOf;
    hide DrawsKey;
    hide DrawsId;
    hide DrawsProxy;
    hide Marked;
    var (w', r) := Perform(w, c);
    var e := EffectOf(w, c);
    PerformIs(w, c);
    OwnEffect(w, c, l, owner, refs);
    StillMarked(w, e, l, owner);
    forall s | Claim(w, l.app, s) ensures Claim(w', l.app, s) {}
    forall s | s in Gains(c, r) ensures Claim(w', l.app, s) { GainsAre(w, c, l, owner, refs, s); }
    StoredAfter(w, c, l, owner, refs);
  }

  lemma StoredAfter(w: World, c: Call, l: Lane, owner: Owner, refs: set<string>)
    requires OwnCall(c, l, owner, refs)
    ensures RefIds(EntryOf(Perform(w, c).0, l.app)) <= RefIds(EntryOf(w, l.app)) + refs
  {
    hide MarkedFor;
    hide DrawsKey;
    hide DrawsId;
    hide DrawsProxy;
    hide Named;
    hide Mark;
    assert RefIds(ZERO_ENTRY) == {};
  }

  // ---------- two calls of different passes commute ----------

  lemma CallsCommute(w: World, a: Call, b: Call, l: Lane, m: Lane, owner: Owner, refs: set<string>, refs': set<string>)
    requires Holds(w, l, owner, refs) && Holds(w, m, owner, refs') && l.app != m.app && DrawApart(l.script, m.script)
    requires OwnCall(a, l, owner, refs) && OwnCall(b, m, owner, refs')
    ensures var (wa, ra) := Perform(w, a);
            var (wb, rb) := Perform(w, b);
            Perform(wb, a).1 == ra && Perform(wa, b).1 == rb && Perform(wa, b).0 == Perform(wb, a).0
  {
    hide Mark;
    hide MarkedFor;
    hide RefIds;
    hide Perform;
    hide EffectOf;
    hide DrawsKey;
    hide DrawsId;
    hide DrawsProxy;
    hide Marked;
    hide Agree;
    hide OwnCall;
    var wa, wb := Perform(w, a).0, Perform(w, b).0;
    var e, f := EffectOf(w, a), EffectOf(w, b);
    PerformIs(w, a);
    PerformIs(w, b);
    OwnEffect(w, a, l, owner, refs);
    OwnEffect(w, b, m, owner, refs');
    assert DrawApart(m.script, l.script);
    OthersAgree(w, f, l, m, owner, refs);
    OthersAgree(w, e, m, l, owner, refs');
    StillMarked(w, e, l, owner);
    StillMarked(w, f, m, owner);
    SameEffect(w, wb, a, l, owner, refs);
    SameEffect(w, wa, b, m, owner, refs');
    PerformIs(wa, b);
    PerformIs(wb, a);
    ChangesCommute(w, e, f);
  }
}
