/** How the working map `tracked` relates to the running gateways, and what one step of
    reconcileEgress does to that relation. */
module Mirror {
  import opened Text
  import opened Targets
  import opened Gateway
  import opened World
  import opened Egress

  type Services = map<string, Service>

  /** The gateway `s` runs for `app`. */
  predicate Runs(v: Services, app: string, s: string) {
    s in v && MarkedFor(v[s].spec, app)
  }

  function AddrOf(v: Services, s: string): string
    requires s in v
  {
    TargetAddr(v[s].spec)
  }

  /** `ref` describes a running gateway of the app, hash included. */
  ghost predicate Describes(v: Services, app: string, a: string, ref: GatewayRef) {
    && ref.target == a
    && Runs(v, app, ref.serviceId)
    && AddrOf(v, ref.serviceId) == a
    && LiveHash(v[ref.serviceId].spec) == ref.hash
  }

  /** Nothing of the app runs at the address any more; the record has outlived its gateway. */
  ghost predicate Lapsed(w: World, app: string, a: string, ref: GatewayRef) {
    && ref.target == a
    && ref.serviceId in w.ids
    && forall s :: Runs(w.services, app, s) ==> AddrOf(w.services, s) != a
  }

  ghost predicate Tracks(w: World, app: string, a: string, ref: GatewayRef) {
    Describes(w.services, app, a, ref) || Lapsed(w, app, a, ref)
  }

  ghost predicate AllTracked(w: World, app: string, tracked: map<string, GatewayRef>) {
    forall a :: a in tracked ==> Tracks(w, app, a, tracked[a])
  }

  /** A tracked service that runs for the app is tracked at the address it serves. */
  ghost predicate Linked(v: Services, app: string, tracked: map<string, GatewayRef>) {
    forall a :: a in tracked && Runs(v, app, tracked[a].serviceId) ==> AddrOf(v, tracked[a].serviceId) in tracked
  }

  /** A lapsed record's service is gone from the cluster, not taken over. */
  ghost predicate Untaken(v: Services, app: string, tracked: map<string, GatewayRef>) {
    forall a :: a in tracked ==> Describes(v, app, a, tracked[a]) || tracked[a].serviceId !in v
  }

  /** Every running gateway of the app is tracked, but for the addresses in `gone`. */
  ghost predicate Covers(v: Services, app: string, tracked: map<string, GatewayRef>, gone: set<string>) {
    forall s :: Runs(v, app, s) ==> AddrOf(v, s) in tracked || AddrOf(v, s) in gone
  }

  ghost predicate UniqueNames(v: Services) {
    forall s, s' :: s in v && s' in v && v[s].spec.name == v[s'].spec.name ==> s == s'
  }

  ghost predicate OnePerAddr(v: Services, app: string) {
    forall s, s' :: Runs(v, app, s) && Runs(v, app, s') && AddrOf(v, s) == AddrOf(v, s') ==> s == s'
  }

  /** A spec gatewaySpec could have produced for this app under this configuration. */
  ghost predicate Built(cfg: Config, app: string, spec: ServiceSpec) {
    exists eg, t, image, secret :: Good(t) && spec == Spec(cfg, eg, t, app, image, secret)
  }

  ghost predicate AllBuilt(v: Services, cfg: Config, app: string) {
    forall s :: Runs(v, app, s) ==> Built(cfg, app, v[s].spec)
  }

  /** What Docker guarantees, and what the app's own gateways look like. */
  ghost predicate Sound(w: World, cfg: Config, app: string) {
    && w.services.Keys <= w.ids
    && UniqueNames(w.services)
    && OnePerAddr(w.services, app)
    && AllBuilt(w.services, cfg, app)
  }

  /** The wanted name is free, or held by the target's own gateway, or held by a service
      not marked for the app while the app has no gateway for the target yet. */
  ghost predicate NameClear(v: Services, job: Job, t: EgressTarget) {
    forall s :: s in v && v[s].spec.name == WantName(job, t) ==>
      if Runs(v, job.app, s) then AddrOf(v, s) == Addr(t)
      else forall g :: Runs(v, job.app, g) ==> AddrOf(v, g) != Addr(t)
  }

  lemma BuiltAddr(cfg: Config, app: string, spec: ServiceSpec)
    requires Built(cfg, app, spec)
    ensures TargetAddr(spec) != ""
  {
    hide Spec;
    hide TargetAddr;
    hide LiveHash;
    var eg, t, image, secret :| Good(t) && spec == Spec(cfg, eg, t, app, image, secret);
    SpecFaithful(cfg, eg, t, app, image, secret);
  }

  /** The hash pins a built spec down to its auth key. */
  lemma HashPinsSpec(job: Job, t: EgressTarget, spec: ServiceSpec)
    requires Good(t) && Built(job.cfg, job.app, spec) && LiveHash(spec) == WantHash(job, t)
    ensures exists secret :: spec == WantSpec(job, t, secret)
  {
    hide TargetAddr;
    hide LiveHash;
    hide Hostname;
    hide Addr;
    var eg, u, image, secret :| Good(u) && spec == Spec(job.cfg, eg, u, job.app, image, secret);
    SpecFaithful(job.cfg, eg, u, job.app, image, secret);
    AddrInjective(t, u);
    assert spec == WantSpec(job, t, secret);
  }

  // ---------- a gateway put in place ----------

  /** Service `sid` now runs the wanted spec; nothing else in Docker changed. */
  ghost predicate Placed(w: World, w': World, job: Job, t: EgressTarget, sid: string) {
    && sid in w'.services
    && w'.services == w.services[sid := w'.services[sid]]
    && w.ids <= w'.ids && w'.services.Keys <= w'.ids
    && (sid in w.services || sid !in w.ids)
    && (exists secret :: w'.services[sid].spec == WantSpec(job, t, secret))
    && Named(w, WantName(job, t)) <= {sid}
  }

  lemma PlacedFacts(w: World, w': World, job: Job, t: EgressTarget, sid: string)
    requires Good(t) && Placed(w, w', job, t, sid)
    ensures var spec := w'.services[sid].spec;
            && spec.name == WantName(job, t) && MarkedFor(spec, job.app)
            && TargetAddr(spec) == Addr(t) && LiveHash(spec) == WantHash(job, t)
            && Built(job.cfg, job.app, spec)
  {
    hide TargetAddr;
    hide LiveHash;
    hide MarkedFor;
    var secret :| w'.services[sid].spec == WantSpec(job, t, secret);
    SpecFaithful(job.cfg, job.eg, t, job.app, job.image, secret);
  }

  /** Seen from the app, only `sid` can have changed. */
  lemma PlacedFrame(w: World, w': World, job: Job, t: EgressTarget, sid: string)
    requires Good(t) && Placed(w, w', job, t, sid)
    ensures Runs(w'.services, job.app, sid) && AddrOf(w'.services, sid) == Addr(t)
    ensures LiveHash(w'.services[sid].spec) == WantHash(job, t)
    ensures Built(job.cfg, job.app, w'.services[sid].spec)
    ensures w'.services[sid].spec.name == WantName(job, t)
    ensures forall s :: s != sid ==> (s in w.services <==> s in w'.services)
    ensures forall s :: s in w.services && s != sid ==> w'.services[s] == w.services[s] && w.services[s].spec.name != WantName(job, t)
    ensures forall s :: s != sid ==> (Runs(w'.services, job.app, s) <==> Runs(w.services, job.app, s))
  {
    hide TargetAddr;
    hide LiveHash;
    hide MarkedFor;
    hide Built;
    hide WantName;
    hide WantSpec;
    PlacedFacts(w, w', job, t, sid);
    forall s | s in w.services && s != sid ensures w.services[s].spec.name != WantName(job, t) {
      assert s !in Named(w, WantName(job, t));
    }
  }

  lemma PlacedSound(w: World, w': World, job: Job, t: EgressTarget, sid: string)
    requires Good(t) && Placed(w, w', job, t, sid) && Sound(w, job.cfg, job.app)
    requires forall s :: Runs(w.services, job.app, s) && AddrOf(w.services, s) == Addr(t) ==> s == sid
    ensures Sound(w', job.cfg, job.app)
  {
    hide TargetAddr;
    hide LiveHash;
    hide MarkedFor;
    hide Built;
    hide WantName;
    hide WantSpec;
    hide Runs;
    PlacedFrame(w, w', job, t, sid);
  }

  lemma PlacedTracks(w: World, w': World, job: Job, t: EgressTarget, sid: string,
                     tracked: map<string, GatewayRef>, ref: GatewayRef)
    requires Good(t) && Placed(w, w', job, t, sid) && Sound(w, job.cfg, job.app) && AllTracked(w, job.app, tracked)
    requires ref.target == Addr(t) && ref.serviceId == sid && ref.hash == WantHash(job, t)
    ensures AllTracked(w', job.app, tracked[Addr(t) := ref])
  {
    hide TargetAddr;
    hide LiveHash;
    hide MarkedFor;
    hide AllBuilt;
    hide UniqueNames;
    hide Built;
    hide WantName;
    hide WantSpec;
    hide Runs;
    PlacedFrame(w, w', job, t, sid);
    forall a | a in tracked && a != Addr(t) ensures Tracks(w', job.app, a, tracked[a]) {
      assert Tracks(w, job.app, a, tracked[a]);
      RunsIn(w.services, job.app, sid);
    }
  }

  lemma RunsIn(v: Services, app: string, s: string)
    ensures Runs(v, app, s) ==> s in v
  {
  }

  lemma PlacedCovers(w: World, w': World, job: Job, t: EgressTarget, sid: string,
                     tracked: map<string, GatewayRef>, gone: set<string>, ref: GatewayRef)
    requires Good(t) && Placed(w, w', job, t, sid) && ref.serviceId == sid
    requires Linked(w.services, job.app, tracked) && Covers(w.services, job.app, tracked, gone)
    ensures Linked(w'.services, job.app, tracked[Addr(t) := ref])
    ensures Covers(w'.services, job.app, tracked[Addr(t) := ref], gone)
  {
    hide TargetAddr;
    hide LiveHash;
    hide MarkedFor;
    hide Built;
    hide WantName;
    hide WantSpec;
    hide Runs;
    PlacedFrame(w, w', job, t, sid);
  }

  /** A gateway placed for `t` leaves the name of every other target as clear as before. */
  lemma PlacedKeepsClear(w: World, w': World, job: Job, t: EgressTarget, sid: string, u: EgressTarget)
    requires Good(t) && Good(u) && Placed(w, w', job, t, sid) && NameClear(w.services, job, u)
    requires Addr(t) != Addr(u) && WantName(job, t) != WantName(job, u)
    ensures NameClear(w'.services, job, u)
  {
    hide TargetAddr;
    hide LiveHash;
    hide MarkedFor;
    hide Built;
    hide WantName;
    hide WantSpec;
    hide Runs;
    PlacedFrame(w, w', job, t, sid);
  }

  lemma PlacedOwnNameClear(w: World, w': World, job: Job, t: EgressTarget, sid: string)
    requires Good(t) && Placed(w, w', job, t, sid)
    ensures NameClear(w'.services, job, t)
  {
    hide TargetAddr;
    hide LiveHash;
    hide MarkedFor;
    hide Built;
    hide WantName;
    hide WantSpec;
    hide Runs;
    PlacedFrame(w, w', job, t, sid);
  }

  // ---------- what creating and updating can do ----------

  predicate FreshKey(w: World, key: Option<Key>) { key.Some? && key.value.id != "" && key.value.id !in w.minted }

  predicate SmoothUpdate(w: World, a: UpdateAnswers) { a.inspect && a.wait && FreshKey(w, a.key) && a.update }

  predicate SmoothCreate(w: World, a: CreateAnswers) {
    a.wait && FreshKey(w, a.key) && a.id.Some? && a.id.value !in w.ids && a.lookup == LookupHit && a.update
  }

  lemma WantSpecName(job: Job, t: EgressTarget, secret: string)
    ensures WantSpec(job, t, secret).name == WantName(job, t)
  {
  }

  /** The gateway carries one key: its ID in the reference, its secret in the spec. */
  predicate Carries(v: Services, ref: GatewayRef, key: Option<Key>) {
    && key.Some? && ref.keyId == key.value.id
    && ref.serviceId in v && AuthKey(v[ref.serviceId].spec) == key.value.secret
  }

  lemma WantSpecCarries(v: Services, job: Job, t: EgressTarget, ref: GatewayRef, key: Key)
    requires ref.keyId == key.id && ref.serviceId in v && v[ref.serviceId].spec == WantSpec(job, t, key.secret)
    ensures Carries(v, ref, Some(key))
  {
    hide AuthKey;
    SpecFaithful(job.cfg, job.eg, t, job.app, job.image, key.secret);
  }

  /** What a create or an adoption by name comes to. */
  ghost predicate CreatedOrNot(w: World, job: Job, t: EgressTarget, w': World, r: Option<GatewayRef>) {
    if r.None? then w'.services == w.services && w'.ids == w.ids
    else
      && Placed(w, w', job, t, r.value.serviceId)
      && r.value.target == Addr(t) && r.value.hash == WantHash(job, t)
      && (r.value.serviceId in w.services ==> r.value.serviceId in Named(w, WantName(job, t)))
  }

  lemma AdoptOutcome(w: World, job: Job, t: EgressTarget, key: Key, a: CreateAnswers, pick: Picker)
    requires w.services.Keys <= w.ids && UniqueNames(w.services) && Named(w, WantName(job, t)) != {}
    ensures var (w', r) := AdoptExisting(w, job, t, key, a, pick);
            && CreatedOrNot(w, job, t, w', r) && (a.lookup == LookupHit && a.update ==> r.Some?)
            && (r.Some? ==> Carries(w'.services, r.value, Some(key)))
  {
    hide AuthKey;
    hide WantHash;
    hide WantSpec;
    hide WantName;
    hide Addr;
    WantSpecName(job, t, key.secret);
    var name := WantName(job, t);
    var s := pick(Named(w, name));
    forall s' | s' in Named(w, name) ensures s' == s {}
    var (w', r) := AdoptExisting(w, job, t, key, a, pick);
    if r.Some? {
      WantSpecCarries(w'.services, job, t, r.value, key);
    }
  }

  lemma CreateServiceOutcome(w: World, job: Job, t: EgressTarget, secret: string, answer: Option<string>)
    requires w.services.Keys <= w.ids
    ensures var (w', c) := CreateService(w, WantSpec(job, t, secret), answer);
            && (!c.Created? ==> w' == w)
            && (c.Exists? ==> Named(w, WantName(job, t)) != {})
            && (c.Created? ==> c.id !in w.services && Placed(w, w', job, t, c.id))
            && (answer.Some? && answer.value !in w.ids ==> !c.CreateFailed?)
  {
    hide WantSpec;
    hide WantName;
    WantSpecName(job, t, secret);
    var (w', c) := CreateService(w, WantSpec(job, t, secret), answer);
    if c.Created? {
      assert w'.services[c.id].spec == WantSpec(job, t, secret);
    }
  }

  lemma PlacedAfterMint(w: World, w1: World, w': World, job: Job, t: EgressTarget, sid: string)
    requires w1.services == w.services && w1.ids == w.ids && Placed(w1, w', job, t, sid)
    ensures Placed(w, w', job, t, sid)
  {
    hide WantSpec;
    hide WantName;
    assert Named(w1, WantName(job, t)) == Named(w, WantName(job, t));
  }

  /** createGateway places the gateway or leaves Docker alone; it succeeds whenever its
      calls do. */
  lemma CreateOutcome(w: World, job: Job, t: EgressTarget, a: CreateAnswers, pick: Picker)
    requires Sound(w, job.cfg, job.app)
    ensures var (w', r) := CreateGateway(w, job, t, a, pick);
            && CreatedOrNot(w, job, t, w', r) && (SmoothCreate(w, a) ==> r.Some?)
            && (r.Some? ==> Carries(w'.services, r.value, a.key))
  {
    hide Carries;
    hide WantHash;
    hide WantSpec;
    hide WantName;
    hide Addr;
    hide AdoptExisting;
    hide UniqueNames;
    hide OnePerAddr;
    hide AllBuilt;
    hide CreateService;
    hide Placed;
    hide Named;
    if a.wait {
      var (w1, key) := Mint(w, a.key);
      if key.Some? {
        CreateServiceOutcome(w1, job, t, key.value.secret, a.id);
        var (w2, created) := CreateService(w1, WantSpec(job, t, key.value.secret), a.id);
        if created.Created? {
          PlacedAfterMint(w, w1, w2, job, t, created.id);
          CreatedSpec(w1, WantSpec(job, t, key.value.secret), a.id);
          WantSpecCarries(w2.services, job, t, GatewayRef(Addr(t), created.id, key.value.id, WantHash(job, t)), key.value);
        } else if created.Exists? {
          AdoptOutcome(w1, job, t, key.value, a, pick);
          var (w3, r) := AdoptExisting(w1, job, t, key.value, a, pick);
          SameNamed(w, w1, WantName(job, t));
          if r.Some? {
            PlacedAfterMint(w, w1, w3, job, t, r.value.serviceId);
          }
        }
      }
    }
  }

  lemma CreatedSpec(w: World, spec: ServiceSpec, answer: Option<string>)
    ensures var (w', c) := CreateService(w, spec, answer);
            c.Created? ==> c.id in w'.services && w'.services[c.id].spec == spec
  {
    hide Named;
  }

  lemma SameNamed(w: World, w': World, name: string)
    requires w.services == w'.services
    ensures Named(w, name) == Named(w', name)
  {
  }

  lemma UpdateOutcome(w: World, job: Job, t: EgressTarget, ref: GatewayRef, a: UpdateAnswers)
    requires w.services.Keys <= w.ids
    ensures var (w', r) := UpdateGateway(w, job, t, ref, a);
            && (!r.Updated? ==> w'.services == w.services && w'.ids == w.ids)
            && (r.Vanished? ==> w' == w && ref.serviceId !in w.services)
            && (r.Updated? ==>
                  && Placed(w, w', job, t, ref.serviceId)
                  && r.ref.target == Addr(t) && r.ref.hash == WantHash(job, t) && r.ref.serviceId == ref.serviceId
                  && Carries(w'.services, r.ref, a.key))
            && (SmoothUpdate(w, a) && ref.serviceId in w.services && Named(w, WantName(job, t)) <= {ref.serviceId} ==> r.Updated?)
  {
    hide AuthKey;
    hide WantHash;
    hide WantSpec;
    hide WantName;
    hide Addr;
    if a.inspect && ref.serviceId in w.services && a.wait {
      var (w1, key) := Mint(w, a.key);
      if key.Some? {
        var spec := WantSpec(job, t, key.value.secret);
        WantSpecName(job, t, key.value.secret);
        assert Named(w1, spec.name) == Named(w, spec.name);
        var (w', r) := UpdateGateway(w, job, t, ref, a);
        if r.Updated? {
          WantSpecCarries(w'.services, job, t, r.ref, key.value);
        }
      }
    }
  }

  /** Exactly when an in-place update goes through. */
  lemma UpdatedIff(w: World, job: Job, t: EgressTarget, ref: GatewayRef, a: UpdateAnswers)
    ensures UpdateGateway(w, job, t, ref, a).1.Updated? <==>
            SmoothUpdate(w, a) && ref.serviceId in w.services && Named(w, WantName(job, t)) <= {ref.serviceId}
  {
    hide WantHash;
    hide WantSpec;
    hide WantName;
    hide Addr;
    var (w1, key) := Mint(w, a.key);
    if key.Some? {
      WantSpecName(job, t, key.value.secret);
      SameNamed(w, w1, WantName(job, t));
    }
  }
}
