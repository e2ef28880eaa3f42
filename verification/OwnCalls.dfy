/** The program of a pass makes only calls of its own, whatever it is answered: on its own
    entry and service, on gateways it has been shown, and for names of its own. */
module OwnCalls {
  import opened Text
  import opened Targets
  import opened Gateway
  import opened Labels
  import opened World
  import opened Egress
  import opened Reconcile
  import opened Mirror
  import opened Convergence
  import opened Independence
  import opened Ownership
  import opened Calls
  import opened Effects

  // ---------- programs that make only their own calls ----------

  /** The next `n` calls of the program are its own, whatever it is answered. */
  ghost predicate Own(n: nat, p: Prog, l: Lane, owner: Owner, refs: set<string>)
    decreases n
  {
    n == 0 || p.Done? ||
    (&& OwnCall(p.call, l, owner, refs)
     && forall r :: Legal(p.call, r, l) ==> Own(n - 1, p.next(r), l, owner, refs + Gains(p.call, r)))
  }

  lemma OwnCallMore(c: Call, l: Lane, owner: Owner, refs: set<string>, refs': set<string>)
    requires OwnCall(c, l, owner, refs) && refs <= refs'
    ensures OwnCall(c, l, owner, refs')
  {
    hide DrawsKey;
    hide DrawsId;
    hide DrawsProxy;
    hide OwnSpec;
    hide RefIds;
  }

  lemma {:induction false} OwnMore(n: nat, m: nat, p: Prog, l: Lane, owner: Owner, refs: set<string>, refs': set<string>)
    requires Own(n, p, l, owner, refs) && m <= n && refs <= refs'
    ensures Own(m, p, l, owner, refs')
    decreases n
  {
    hide OwnCall;
    hide Legal;
    hide Gains;
    if m > 0 && p.Do? {
      OwnCallMore(p.call, l, owner, refs, refs');
      forall r | Legal(p.call, r, l) ensures Own(m - 1, p.next(r), l, owner, refs' + Gains(p.call, r)) {
        OwnMore(n - 1, m - 1, p.next(r), l, owner, refs + Gains(p.call, r), refs' + Gains(p.call, r));
      }
    }
  }

  // ---------- the programs of passes make only their own calls ----------

  /** The app of a job asks for its own names, with its own answers. */
  ghost predicate OwnJob(job: Job, l: Lane, owner: Owner) { job.app == l.app && JobOwns(job, owner) }

  lemma OwnExpire(n: nat, key: string, k: Prog, l: Lane, owner: Owner, refs: set<string>)
    requires Own(n, k, l, owner, refs)
    ensures Own(n, Do(ExpireKey(key), (_: Reply) => k), l, owner, refs)
  {
    hide OwnCall;
    hide Legal;
    if n > 0 {
      OwnMore(n, n - 1, k, l, owner, refs, refs);
      assert refs + {} == refs;
      assert OwnCall(ExpireKey(key), l, owner, refs) by { Free(key, l, owner, refs); }
      forall r | Legal(ExpireKey(key), r, l) ensures Gains(ExpireKey(key), r) == {} { Quiet(ExpireKey(key), r, l); }
    }
  }

  lemma Free(key: string, l: Lane, owner: Owner, refs: set<string>)
    ensures OwnCall(ExpireKey(key), l, owner, refs)
  {
  }

  /** Replies that show the pass nothing new. */
  lemma Quiet(c: Call, r: Reply, l: Lane)
    requires Legal(c, r, l) && !c.GetEntry? && !c.ListMarked? && !c.ListNamed? && !c.Create?
    ensures Gains(c, r) == {}
  {
  }

  lemma OwnRemove(n: nat, ref: GatewayRef, a: RemoveAnswers, k: bool -> Prog, l: Lane, owner: Owner, refs: set<string>)
    requires ref.serviceId in refs && forall b :: Own(n, k(b), l, owner, refs)
    ensures Own(n, RemoveGatewayProg(ref, a, k), l, owner, refs)
  {
    hide DrawsKey;
    hide DrawsId;
    hide RefIds;
    if a.wait && n > 0 {
      var c := Remove(ref.serviceId, a.removed);
      var p := RemoveGatewayProg(ref, a, k);
      OwnMore(n, n - 1, k(true), l, owner, refs, refs);
      OwnMore(n, n - 1, k(false), l, owner, refs, refs);
      OwnExpire(n - 1, ref.keyId, k(true), l, owner, refs);
      hide Own;
      forall r | Legal(c, r, l) ensures Own(n - 1, p.next(r), l, owner, refs + Gains(c, r)) {
        Quiet(c, r, l);
        assert refs + {} == refs;
      }
      OwnIs(n, p, l, owner, refs);
    }
  }

  lemma OwnIs(n: nat, p: Prog, l: Lane, owner: Owner, refs: set<string>)
    requires n > 0 && p.Do? && OwnCall(p.call, l, owner, refs)
    requires forall r :: Legal(p.call, r, l) ==> Own(n - 1, p.next(r), l, owner, refs + Gains(p.call, r))
    ensures Own(n, p, l, owner, refs)
  {
  }

  /** A spec the job wants is the app's own. */
  lemma SpecOwn(job: Job, t: EgressTarget, secret: string, l: Lane, owner: Owner)
    requires OwnJob(job, l, owner) && owner(WantName(job, t)) == Some(job.app)
    ensures OwnSpec(WantSpec(job, t, secret), l.app, owner)
  {
    hide WantName;
    WantSpecMarked(job, t, secret);
    WantSpecName(job, t, secret);
  }

  /** What follows a create or an adoption, once the pass may refer to its result. */
  ghost predicate OwnThen(n: nat, k: Option<GatewayRef> -> Prog, l: Lane, owner: Owner, refs: set<string>) {
    forall r: Option<GatewayRef>, refs' :: refs <= refs' && (r.Some? ==> r.value.serviceId in refs') ==> Own(n, k(r), l, owner, refs')
  }

  lemma OwnResult(n: nat, k: Option<GatewayRef> -> Prog, r: Option<GatewayRef>, l: Lane, owner: Owner, refs: set<string>)
    requires OwnThen(n, k, l, owner, refs) && (r.Some? ==> r.value.serviceId in refs)
    ensures Own(n, k(r), l, owner, refs)
  {
    assert refs <= refs;
  }

  lemma OwnThenMore(n: nat, m: nat, k: Option<GatewayRef> -> Prog, l: Lane, owner: Owner, refs: set<string>, refs0: set<string>)
    requires OwnThen(n, k, l, owner, refs) && m <= n && refs <= refs0
    ensures OwnThen(m, k, l, owner, refs0)
  {
    forall r: Option<GatewayRef>, refs' | refs0 <= refs' && (r.Some? ==> r.value.serviceId in refs') ensures Own(m, k(r), l, owner, refs') {
      assert refs <= refs';
      OwnMore(n, m, k(r), l, owner, refs', refs');
    }
  }

  lemma OwnGiveUp(n: nat, key: string, k: Option<GatewayRef> -> Prog, l: Lane, owner: Owner, refs: set<string>)
    requires OwnThen(n, k, l, owner, refs)
    ensures Own(n, Do(ExpireKey(key), (_: Reply) => k(None)), l, owner, refs)
  {
    hide Own;
    hide OwnThen;
    OwnResult(n, k, None, l, owner, refs);
    OwnExpire(n, key, k(None), l, owner, refs);
  }

  lemma OwnAdopted(n: nat, p: Prog, existing: string, key: Key, job: Job, t: EgressTarget, k: Option<GatewayRef> -> Prog, l: Lane, owner: Owner, refs: set<string>)
    requires OwnThen(n, k, l, owner, refs) && existing in refs && p.Do? && p.call.Update? && OwnCall(p.call, l, owner, refs)
    requires forall r: Reply :: p.next(r) ==
               if r == Flag(true) then k(Some(GatewayRef(Addr(t), existing, key.id, WantHash(job, t))))
               else Do(ExpireKey(key.id), (_: Reply) => k(None))
    ensures Own(n, p, l, owner, refs)
  {
    hide Own;
    hide OwnCall;
    hide Legal;
    hide Gains;
    hide WantHash;
    hide Addr;
    if n == 0 {
      OwnNone(p, l, owner, refs);
    } else {
      OwnThenMore(n, n - 1, k, l, owner, refs, refs);
      OwnGiveUp(n - 1, key.id, k, l, owner, refs);
      forall r | Legal(p.call, r, l) ensures Own(n - 1, p.next(r), l, owner, refs + Gains(p.call, r)) {
        Quiet(p.call, r, l);
        assert refs + {} == refs;
      }
      OwnIs(n, p, l, owner, refs);
    }
  }

  lemma OwnNone(p: Prog, l: Lane, owner: Owner, refs: set<string>)
    ensures Own(0, p, l, owner, refs)
  {
  }

  lemma OwnAdopt(n: nat, job: Job, t: EgressTarget, key: Key, a: CreateAnswers, pick: Picker, k: Option<GatewayRef> -> Prog,
                 l: Lane, owner: Owner, refs: set<string>)
    requires OwnJob(job, l, owner) && owner(WantName(job, t)) == Some(job.app) && OwnThen(n, k, l, owner, refs)
    ensures Own(n, AdoptProg(job, t, key, a, pick, k), l, owner, refs)
  {
    hide Own;
    hide OwnThen;
    hide OwnSpec;
    hide WantSpec;
    hide WantName;
    hide WantHash;
    hide Addr;
    hide OwnJob;
    hide RefIds;
    hide DrawsKey;
    hide DrawsId;
    var p := AdoptProg(job, t, key, a, pick, k);
    var spec := WantSpec(job, t, key.secret);
    SpecOwn(job, t, key.secret, l, owner);
    assert owner(spec.name) == Some(l.app) by { OwnName(spec, l, owner); }
    if n == 0 {
      OwnNone(p, l, owner, refs);
    } else {
      forall r | Legal(p.call, r, l) ensures Own(n - 1, p.next(r), l, owner, refs + Gains(p.call, r)) {
        var refs' := refs + r.v.Keys;
        OwnThenMore(n, n - 1, k, l, owner, refs, refs');
        OwnGiveUp(n - 1, key.id, k, l, owner, refs');
        if a.lookup == LookupHit && r.v != map[] {
          var existing := pick(r.v.Keys);
          OwnAdopted(n - 1, p.next(r), existing, key, job, t, k, l, owner, refs');
        }
      }
      OwnIs(n, p, l, owner, refs);
    }
  }

  lemma OwnName(spec: ServiceSpec, l: Lane, owner: Owner)
    requires OwnSpec(spec, l.app, owner)
    ensures owner(spec.name) == Some(l.app)
  {
    hide Mark;
  }

  lemma OwnMade(n: nat, p: Prog, job: Job, t: EgressTarget, key: Key, a: CreateAnswers, pick: Picker, k: Option<GatewayRef> -> Prog,
                l: Lane, owner: Owner, refs: set<string>)
    requires OwnJob(job, l, owner) && owner(WantName(job, t)) == Some(job.app) && OwnThen(n, k, l, owner, refs)
    requires p.Do? && p.call.Create? && OwnCall(p.call, l, owner, refs)
    requires forall r: Reply :: p.next(r) ==
               if r == Made(Exists) then AdoptProg(job, t, key, a, pick, k)
               else if r.Made? && r.c.Created? then k(Some(GatewayRef(Addr(t), r.c.id, key.id, WantHash(job, t))))
               else Do(ExpireKey(key.id), (_: Reply) => k(None))
    ensures Own(n, p, l, owner, refs)
  {
    hide Own;
    hide OwnCall;
    hide OwnThen;
    hide OwnJob;
    hide AdoptProg;
    hide WantName;
    hide WantHash;
    hide Addr;
    hide RefIds;
    if n == 0 {
      OwnNone(p, l, owner, refs);
    } else {
      forall r | Legal(p.call, r, l) ensures Own(n - 1, p.next(r), l, owner, refs + Gains(p.call, r)) {
        var refs' := refs + Gains(p.call, r);
        OwnThenMore(n, n - 1, k, l, owner, refs, refs');
        if r.c.Exists? {
          OwnAdopt(n - 1, job, t, key, a, pick, k, l, owner, refs');
        } else if r.c.Created? {
          OwnResult(n - 1, k, Some(GatewayRef(Addr(t), r.c.id, key.id, WantHash(job, t))), l, owner, refs');
        } else {
          OwnGiveUp(n - 1, key.id, k, l, owner, refs');
        }
      }
      OwnIs(n, p, l, owner, refs);
    }
  }

  lemma OwnCreate(n: nat, job: Job, t: EgressTarget, addr: string, a: CreateAnswers, pick: Picker, k: Option<GatewayRef> -> Prog,
                  l: Lane, owner: Owner, refs: set<string>)
    requires OwnJob(job, l, owner) && owner(WantName(job, t)) == Some(job.app) && OwnThen(n, k, l, owner, refs)
    requires a == l.script.egress.put(addr).create
    ensures Own(n, CreateProg(job, t, a, pick, k), l, owner, refs)
  {
    hide Own;
    hide OwnThen;
    hide OwnSpec;
    hide AdoptProg;
    hide WantSpec;
    hide WantName;
    hide WantHash;
    hide Addr;
    hide OwnJob;
    hide RefIds;
    var p := CreateProg(job, t, a, pick, k);
    OwnResult(n, k, None, l, owner, refs);
    if n == 0 {
      OwnNone(p, l, owner, refs);
    } else if a.wait {
      forall r | Legal(p.call, r, l) ensures Own(n - 1, p.next(r), l, owner, refs + Gains(p.call, r)) {
        Quiet(p.call, r, l);
        assert refs + {} == refs;
        OwnThenMore(n, n - 1, k, l, owner, refs, refs);
        OwnResult(n - 1, k, None, l, owner, refs);
        if r.key.Some? {
          SpecOwn(job, t, r.key.value.secret, l, owner);
          OwnMade(n - 1, p.next(r), job, t, r.key.value, a, pick, k, l, owner, refs);
        }
      }
      OwnIs(n, p, l, owner, refs);
    }
  }

  ghost predicate OwnUpdated(n: nat, k: Updated -> Prog, l: Lane, owner: Owner, refs: set<string>) {
    forall u: Updated :: (u.Updated? ==> u.ref.serviceId in refs) ==> Own(n, k(u), l, owner, refs)
  }

  lemma OwnUpdatedMore(n: nat, m: nat, k: Updated -> Prog, l: Lane, owner: Owner, refs: set<string>)
    requires OwnUpdated(n, k, l, owner, refs) && m <= n
    ensures OwnUpdated(m, k, l, owner, refs)
  {
    forall u: Updated | u.Updated? ==> u.ref.serviceId in refs ensures Own(m, k(u), l, owner, refs) {
      OwnMore(n, m, k(u), l, owner, refs, refs);
    }
  }

  lemma OwnUpdatedOne(n: nat, k: Updated -> Prog, u: Updated, l: Lane, owner: Owner, refs: set<string>)
    requires OwnUpdated(n, k, l, owner, refs) && (u.Updated? ==> u.ref.serviceId in refs)
    ensures Own(n, k(u), l, owner, refs)
  {
  }

  /** After the key is minted: the update, and the key it replaces or gives up. */
  lemma OwnRotated(n: nat, p: Prog, ref: GatewayRef, ref': GatewayRef, key: Key, k: Updated -> Prog, l: Lane, owner: Owner, refs: set<string>)
    requires OwnUpdated(n, k, l, owner, refs) && ref'.serviceId in refs && p.Do? && p.call.Update? && OwnCall(p.call, l, owner, refs)
    requires forall r: Reply :: p.next(r) ==
               if r != Flag(true) then Do(ExpireKey(key.id), (_: Reply) => k(UpdateFailed))
               else if ref.keyId != key.id then Do(ExpireKey(ref.keyId), (_: Reply) => k(Updated(ref')))
               else k(Updated(ref'))
    ensures Own(n, p, l, owner, refs)
  {
    hide Own;
    hide OwnUpdated;
    hide OwnCall;
    hide Legal;
    hide Gains;
    if n == 0 {
      OwnNone(p, l, owner, refs);
    } else {
      OwnUpdatedMore(n, n - 1, k, l, owner, refs);
      OwnUpdatedOne(n - 1, k, UpdateFailed, l, owner, refs);
      OwnUpdatedOne(n - 1, k, Updated(ref'), l, owner, refs);
      OwnExpire(n - 1, key.id, k(UpdateFailed), l, owner, refs);
      OwnExpire(n - 1, ref.keyId, k(Updated(ref')), l, owner, refs);
      forall r | Legal(p.call, r, l) ensures Own(n - 1, p.next(r), l, owner, refs + Gains(p.call, r)) {
        Quiet(p.call, r, l);
        assert refs + {} == refs;
      }
      OwnIs(n, p, l, owner, refs);
    }
  }

  lemma OwnMinted(n: nat, p: Prog, job: Job, t: EgressTarget, ref: GatewayRef, version: nat, a: UpdateAnswers, k: Updated -> Prog,
                  l: Lane, owner: Owner, refs: set<string>)
    requires OwnJob(job, l, owner) && owner(WantName(job, t)) == Some(job.app) && ref.serviceId in refs && OwnUpdated(n, k, l, owner, refs)
    requires p.Do? && p.call == MintKey(a.key) && OwnCall(p.call, l, owner, refs)
    requires forall r: Reply :: r.Minted? && r.key.Some? ==>
               && p.next(r).Do?
               && p.next(r).call == Update(ref.serviceId, version, WantSpec(job, t, r.key.value.secret), a.update)
               && forall r3: Reply :: p.next(r).next(r3) ==
                    var ref' := GatewayRef(Addr(t), ref.serviceId, r.key.value.id, WantHash(job, t));
                    if r3 != Flag(true) then Do(ExpireKey(r.key.value.id), (_: Reply) => k(UpdateFailed))
                    else if ref.keyId != r.key.value.id then Do(ExpireKey(ref.keyId), (_: Reply) => k(Updated(ref')))
                    else k(Updated(ref'))
    requires forall r: Reply :: r.Minted? && r.key.None? ==> p.next(r) == k(UpdateFailed)
    ensures Own(n, p, l, owner, refs)
  {
    hide Own;
    hide OwnUpdated;
    hide OwnSpec;
    hide OwnJob;
    hide WantSpec;
    hide WantName;
    hide WantHash;
    hide Addr;
    hide RefIds;
    hide DrawsKey;
    if n == 0 {
      OwnNone(p, l, owner, refs);
    } else {
      OwnUpdatedMore(n, n - 1, k, l, owner, refs);
      forall r | Legal(p.call, r, l) ensures Own(n - 1, p.next(r), l, owner, refs + Gains(p.call, r)) {
        Quiet(p.call, r, l);
        assert refs + {} == refs;
        if r.key.Some? {
          var key := r.key.value;
          SpecOwn(job, t, key.secret, l, owner);
          OwnRotated(n - 1, p.next(r), ref, GatewayRef(Addr(t), ref.serviceId, key.id, WantHash(job, t)), key, k, l, owner, refs);
        } else {
          OwnUpdatedOne(n - 1, k, UpdateFailed, l, owner, refs);
        }
      }
      OwnIs(n, p, l, owner, refs);
    }
  }

  lemma OwnUpdate(n: nat, job: Job, t: EgressTarget, addr: string, ref: GatewayRef, a: UpdateAnswers, k: Updated -> Prog,
                  l: Lane, owner: Owner, refs: set<string>)
    requires OwnJob(job, l, owner) && owner(WantName(job, t)) == Some(job.app) && ref.serviceId in refs
    requires a == l.script.egress.put(addr).update && OwnUpdated(n, k, l, owner, refs)
    ensures Own(n, UpdateProg(job, t, ref, a, k), l, owner, refs)
  {
    hide Own;
    hide OwnUpdated;
    hide OwnSpec;
    hide OwnJob;
    hide WantSpec;
    hide WantName;
    hide WantHash;
    hide Addr;
    hide RefIds;
    var p := UpdateProg(job, t, ref, a, k);
    OwnUpdatedOne(n, k, UpdateFailed, l, owner, refs);
    if n == 0 {
      OwnNone(p, l, owner, refs);
    } else if a.inspect {
      OwnUpdatedMore(n, n - 1, k, l, owner, refs);
      OwnUpdatedOne(n - 1, k, UpdateFailed, l, owner, refs);
      OwnUpdatedOne(n - 1, k, Vanished, l, owner, refs);
      assert a.key.Some? ==> DrawsKey(l.script, a.key.value.id) by {
        assert a.key.Some? ==> IsKey(l.script.egress.put(addr).update.key, a.key.value.id);
      }
      forall r | Legal(p.call, r, l) ensures Own(n - 1, p.next(r), l, owner, refs + Gains(p.call, r)) {
        Quiet(p.call, r, l);
        assert refs + {} == refs;
        if ref.serviceId in r.v && a.wait {
          OwnMinted(n - 1, p.next(r), job, t, ref, r.v[ref.serviceId].version, a, k, l, owner, refs);
        }
      }
      OwnIs(n, p, l, owner, refs);
    }
  }

  // ---------- the loops ----------

  predicate RefsIn(m: Refs, refs: set<string>) { forall a :: a in m ==> m[a].serviceId in refs }

  /** What follows a loop, once the pass may refer to what it tracks. */
  ghost predicate OwnTracking(n: nat, k: (Refs, bool) -> Prog, l: Lane, owner: Owner, refs: set<string>) {
    forall m: Refs, ok: bool, refs' :: refs <= refs' && RefsIn(m, refs') ==> Own(n, k(m, ok), l, owner, refs')
  }

  lemma OwnTracked(n: nat, k: (Refs, bool) -> Prog, m: Refs, ok: bool, l: Lane, owner: Owner, refs: set<string>, refs': set<string>)
    requires OwnTracking(n, k, l, owner, refs) && refs <= refs' && RefsIn(m, refs')
    ensures Own(n, k(m, ok), l, owner, refs')
  {
  }

  lemma OwnTrackingMore(n: nat, k: (Refs, bool) -> Prog, l: Lane, owner: Owner, refs: set<string>, refs0: set<string>)
    requires OwnTracking(n, k, l, owner, refs) && refs <= refs0
    ensures OwnTracking(n, k, l, owner, refs0)
  {
    hide Own;
    hide RefsIn;
    forall m: Refs, ok: bool, refs' | refs0 <= refs' && RefsIn(m, refs') ensures Own(n, k(m, ok), l, owner, refs') {
      assert refs <= refs';
      OwnTracked(n, k, m, ok, l, owner, refs, refs');
    }
  }

  lemma {:induction false} OwnRemoveLoop(n: nat, tracked: Refs, ok: bool, keep: set<string>, todo: set<string>, ans: Answers,
                                         k: (Refs, bool) -> Prog, l: Lane, owner: Owner, refs: set<string>)
    requires RefsIn(tracked, refs) && OwnTracking(n, k, l, owner, refs)
    ensures Own(n, RemoveLoopProg(tracked, ok, keep, todo, ans, k), l, owner, refs)
    decreases todo
  {
    hide Own;
    hide OwnTracking;
    hide RemoveGatewayProg;
    if todo == {} {
      OwnTracked(n, k, tracked, ok, l, owner, refs, refs);
    } else {
      var addr := ans.pick(todo);
      if addr in keep || addr !in tracked {
        OwnRemoveLoop(n, tracked, ok, keep, todo - {addr}, ans, k, l, owner, refs);
      } else {
        var rest := (done: bool) =>
          RemoveLoopProg(if done then tracked - {addr} else tracked, ok && done, keep, todo - {addr}, ans, k);
        forall b ensures Own(n, rest(b), l, owner, refs) {
          OwnRemoveLoop(n, if b then tracked - {addr} else tracked, ok && b, keep, todo - {addr}, ans, k, l, owner, refs);
        }
        OwnRemove(n, tracked[addr], ans.remove(addr), rest, l, owner, refs);
      }
    }
  }

  lemma OwnCreateInto(n: nat, tracked: Refs, ok: bool, job: Job, t: EgressTarget, addr: string, a: CreateAnswers, pick: Picker,
                      k: (Refs, bool) -> Prog, l: Lane, owner: Owner, refs: set<string>)
    requires OwnJob(job, l, owner) && owner(WantName(job, t)) == Some(job.app) && a == l.script.egress.put(addr).create
    requires RefsIn(tracked, refs) && OwnTracking(n, k, l, owner, refs)
    ensures Own(n, CreateIntoProg(tracked, ok, job, t, a, pick, k), l, owner, refs)
  {
    hide Own;
    hide OwnTracking;
    hide CreateProg;
    hide OwnJob;
    hide WantName;
    hide Addr;
    var rest := (r: Option<GatewayRef>) => if r.None? then k(tracked, false) else k(tracked[Addr(t) := r.value], ok);
    forall r: Option<GatewayRef>, refs' | refs <= refs' && (r.Some? ==> r.value.serviceId in refs') ensures Own(n, rest(r), l, owner, refs') {
      OwnTracked(n, k, if r.None? then tracked else tracked[Addr(t) := r.value], r.Some? && ok, l, owner, refs, refs');
    }
    OwnCreate(n, job, t, addr, a, pick, rest, l, owner, refs);
  }

  lemma OwnPutOne(n: nat, tracked: Refs, ok: bool, job: Job, t: EgressTarget, addr: string, a: PutAnswers, pick: Picker,
                  k: (Refs, bool) -> Prog, l: Lane, owner: Owner, refs: set<string>)
    requires OwnJob(job, l, owner) && owner(WantName(job, t)) == Some(job.app) && a == l.script.egress.put(addr)
    requires RefsIn(tracked, refs) && OwnTracking(n, k, l, owner, refs)
    ensures Own(n, PutOneProg(tracked, ok, job, t, a, pick, k), l, owner, refs)
  {
    hide Own;
    hide OwnTracking;
    hide CreateIntoProg;
    hide UpdateProg;
    hide OwnJob;
    hide WantName;
    hide WantHash;
    hide Addr;
    var at := Addr(t);
    if at !in tracked {
      OwnCreateInto(n, tracked, ok, job, t, addr, a.create, pick, k, l, owner, refs);
    } else if tracked[at].hash == WantHash(job, t) {
      OwnTracked(n, k, tracked, ok, l, owner, refs, refs);
    } else {
      var rest := (u: Updated) =>
        match u
        case UpdateFailed => k(tracked - {at}, false)
        case Vanished => CreateIntoProg(tracked - {at}, ok, job, t, a.create, pick, k)
        case Updated(ref) => k(tracked[at := ref], ok);
      forall u: Updated | u.Updated? ==> u.ref.serviceId in refs ensures Own(n, rest(u), l, owner, refs) {
        match u
        case UpdateFailed => OwnTracked(n, k, tracked - {at}, false, l, owner, refs, refs);
        case Vanished => OwnCreateInto(n, tracked - {at}, ok, job, t, addr, a.create, pick, k, l, owner, refs);
        case Updated(ref) => OwnTracked(n, k, tracked[at := ref], ok, l, owner, refs, refs);
      }
      OwnUpdate(n, job, t, addr, tracked[at], a.update, rest, l, owner, refs);
    }
  }

  lemma {:induction false} OwnPutLoop(n: nat, tracked: Refs, ok: bool, job: Job, todo: set<string>, ans: Answers,
                                      k: (Refs, bool) -> Prog, l: Lane, owner: Owner, refs: set<string>)
    requires OwnJob(job, l, owner) && ans == l.script.egress && todo <= Wanted(job).Keys
    requires RefsIn(tracked, refs) && OwnTracking(n, k, l, owner, refs)
    ensures Own(n, PutLoopProg(tracked, ok, job, Wanted(job), todo, ans, k), l, owner, refs)
    decreases todo, 1
  {
    hide Own;
    hide PutOneProg;
    hide Wanted;
    hide WantName;
    if todo == {} {
      OwnTracked(n, k, tracked, ok, l, owner, refs, refs);
    } else {
      hide OwnTracking;
      var addr := ans.pick(todo);
      var rest := (tracked': Refs, ok': bool) => PutLoopProg(tracked', ok', job, Wanted(job), todo - {addr}, ans, k);
      assert OwnTracking(n, rest, l, owner, refs) by { OwnPutRest(n, job, todo, addr, ans, k, l, owner, refs); }
      WantedOwn(job, l, owner, addr);
      OwnPutOne(n, tracked, ok, job, Wanted(job)[addr], addr, ans.put(addr), ans.pick, rest, l, owner, refs);
    }
  }

  lemma WantedOwn(job: Job, l: Lane, owner: Owner, a: string)
    requires OwnJob(job, l, owner) && a in Wanted(job)
    ensures owner(WantName(job, Wanted(job)[a])) == Some(job.app)
  {
    hide WantName;
  }

  lemma OwnPutRest(n: nat, job: Job, todo: set<string>, addr: string, ans: Answers, k: (Refs, bool) -> Prog, l: Lane, owner: Owner, refs: set<string>)
    requires OwnJob(job, l, owner) && ans == l.script.egress && todo <= Wanted(job).Keys && addr in todo
    requires OwnTracking(n, k, l, owner, refs)
    ensures OwnTracking(n, (tracked': Refs, ok': bool) => PutLoopProg(tracked', ok', job, Wanted(job), todo - {addr}, ans, k), l, owner, refs)
    decreases todo, 0
  {
    hide Own;
    hide PutLoopProg;
    hide OwnJob;
    hide Wanted;
    forall m: Refs, ok: bool, refs' | refs <= refs' && RefsIn(m, refs')
      ensures Own(n, PutLoopProg(m, ok, job, Wanted(job), todo - {addr}, ans, k), l, owner, refs') {
      OwnTrackingMore(n, k, l, owner, refs, refs');
      OwnPutLoop(n, m, ok, job, todo - {addr}, ans, k, l, owner, refs');
    }
  }

  // ---------- egress, ingress, teardown ----------

  lemma {:induction false} AdoptIn(v: Services, out: Refs, known: set<string>, todo: set<string>, pick: Picker, refs: set<string>)
    requires todo <= v.Keys && v.Keys <= refs && RefsIn(out, refs)
    ensures RefsIn(Adopt(NOWHERE.(services := v), out, known, todo, pick), refs)
    decreases todo
  {
    hide TargetAddr;
    hide LiveHash;
    if todo != {} {
      var s := pick(todo);
      var addr := TargetAddr(v[s].spec);
      var out' := if s in known || addr == "" || addr in out then out else out[addr := GatewayRef(addr, s, "", LiveHash(v[s].spec))];
      AdoptIn(v, out', known, todo - {s}, pick, refs);
    }
  }

  lemma TrackedRefs(prev: Entry, v: Services, pick: Picker, refs: set<string>)
    requires RefIds(prev) <= refs && v.Keys <= refs
    ensures RefsIn(TrackedIn(prev, v, pick), refs)
  {
    hide Adopt;
    hide StoreIndex;
    StoreIndexFrom(prev.gateways);
    var out := StoreIndex(prev.gateways);
    forall a | a in out ensures out[a].serviceId in refs { assert out[a].serviceId in RefIds(prev); }
    AdoptIn(v, out, KnownServices(out), v.Keys, pick, refs);
  }

  ghost predicate OwnAll(n: nat, k: bool -> Prog, l: Lane, owner: Owner, refs: set<string>) {
    forall b :: Own(n, k(b), l, owner, refs)
  }

  lemma OwnAllMore(n: nat, m: nat, k: bool -> Prog, l: Lane, owner: Owner, refs: set<string>, refs': set<string>)
    requires OwnAll(n, k, l, owner, refs) && m <= n && refs <= refs'
    ensures OwnAll(m, k, l, owner, refs')
  {
    forall b ensures Own(m, k(b), l, owner, refs') { OwnMore(n, m, k(b), l, owner, refs, refs'); }
  }

  /** A write to the app's own entry. */
  lemma OwnStore(n: nat, c: Call, p: Prog, k: Prog, l: Lane, owner: Owner, refs: set<string>)
    requires p.Do? && p.call == c && (forall r :: p.next(r) == k) && (c.PutEntry? || c.DropEntry?)
    requires OwnCall(c, l, owner, refs) && Own(n, k, l, owner, refs)
    ensures Own(n, p, l, owner, refs)
  {
    hide Own;
    hide OwnCall;
    hide Legal;
    hide Gains;
    if n == 0 {
      OwnNone(p, l, owner, refs);
    } else {
      OwnMore(n, n - 1, k, l, owner, refs, refs);
      forall r | Legal(c, r, l) ensures Own(n - 1, p.next(r), l, owner, refs + Gains(c, r)) {
        Quiet(c, r, l);
        assert refs + {} == refs;
      }
      OwnIs(n, p, l, owner, refs);
    }
  }

  lemma SortedRefs(prev: Entry, tracked: Refs, pick: Picker, hash: SetHash, refs: set<string>)
    requires RefsIn(tracked, refs)
    ensures RefIds(prev.(gateways := SortedGateways(tracked, pick), gatewayHash := hash)) <= refs
  {
    hide SortedGateways;
    SortedFrom(tracked, pick);
  }

  lemma OwnDiff(n: nat, job: Job, prev: Entry, tracked: Refs, ans: Answers, k: bool -> Prog, l: Lane, owner: Owner, refs: set<string>)
    requires OwnJob(job, l, owner) && ans == l.script.egress && RefsIn(tracked, refs) && RefIds(prev) <= refs && OwnAll(n, k, l, owner, refs)
    ensures Own(n, DiffProg(job, prev, tracked, ans, k), l, owner, refs)
  {
    hide Own;
    hide RemoveLoopProg;
    hide PutLoopProg;
    hide FastGate;
    hide SortedGateways;
    hide WholeHash;
    hide RefIds;
    hide DrawsKey;
    hide DrawsId;
    hide RefsIn;
    var desired := Wanted(job);
    assert desired == Desired(job.eg.targets);
    hide Wanted;
    if FastGate(job, prev, tracked, desired) {
      OwnOne(n, k, true, l, owner, refs);
      OwnStore(n, PutEntry(job.app, prev), DiffProg(job, prev, tracked, ans, k), k(true), l, owner, refs);
    } else {
      var last := (tracked2: Refs, ok2: bool) => RecordProg(job, prev, tracked2, ok2, ans, k);
      var rest := (tracked1: Refs, ok1: bool) => PutLoopProg(tracked1, ok1, job, desired, desired.Keys, ans, last);
      assert OwnTracking(n, last, l, owner, refs) by {
        forall m: Refs, ok: bool, refs' | refs <= refs' && RefsIn(m, refs') ensures Own(n, last(m, ok), l, owner, refs') {
          OwnRecord(n, job, prev, m, ok, ans, k, l, owner, refs, refs');
        }
      }
      assert OwnTracking(n, rest, l, owner, refs) by {
        forall m: Refs, ok: bool, refs' | refs <= refs' && RefsIn(m, refs') ensures Own(n, rest(m, ok), l, owner, refs') {
          OwnTrackingMore(n, last, l, owner, refs, refs');
          OwnPutLoop(n, m, ok, job, desired.Keys, ans, last, l, owner, refs');
        }
      }
      hide OwnTracking;
      OwnRemoveLoop(n, tracked, true, desired.Keys, tracked.Keys, ans, rest, l, owner, refs);
    }
  }

  lemma OwnOne(n: nat, k: bool -> Prog, b: bool, l: Lane, owner: Owner, refs: set<string>)
    requires OwnAll(n, k, l, owner, refs)
    ensures Own(n, k(b), l, owner, refs)
  {
  }

  lemma OwnRecord(n: nat, job: Job, prev: Entry, tracked: Refs, ok: bool, ans: Answers, k: bool -> Prog, l: Lane, owner: Owner, refs: set<string>, refs': set<string>)
    requires job.app == l.app && refs <= refs' && RefsIn(tracked, refs') && OwnAll(n, k, l, owner, refs)
    ensures Own(n, RecordProg(job, prev, tracked, ok, ans, k), l, owner, refs')
  {
    hide Own;
    hide SortedGateways;
    hide WholeHash;
    hide RefIds;
    var p := RecordProg(job, prev, tracked, ok, ans, k);
    SortedRefs(prev, tracked, ans.pick, WholeHash(job.eg, job.image), refs');
    OwnAllMore(n, n, k, l, owner, refs, refs');
    OwnOne(n, k, ok, l, owner, refs');
    OwnStore(n, p.call, p, k(ok), l, owner, refs');
  }

  lemma OwnEgress(n: nat, job: Job, ans: Answers, k: bool -> Prog, l: Lane, owner: Owner, refs: set<string>)
    requires OwnJob(job, l, owner) && ans == l.script.egress && OwnAll(n, k, l, owner, refs)
    ensures Own(n, EgressProg(job, ans, k), l, owner, refs)
  {
    hide Own;
    hide OwnAll;
    hide TrackedIn;
    hide DiffProg;
    hide RefIds;
    hide RefsIn;
    var p := EgressProg(job, ans, k);
    OwnOne(n, k, false, l, owner, refs);
    if n == 0 {
      OwnNone(p, l, owner, refs);
    } else if job.image != "" {
      forall r | Legal(p.call, r, l) ensures Own(n - 1, p.next(r), l, owner, refs + Gains(p.call, r)) {
        var refs' := refs + RefIds(r.e);
        OwnAllMore(n, n - 1, k, l, owner, refs, refs');
        OwnOne(n - 1, k, false, l, owner, refs');
        if ans.list {
          OwnListed(n - 1, p.next(r), job, r.e, ans, k, l, owner, refs');
        }
      }
      OwnIs(n, p, l, owner, refs);
    }
  }

  lemma OwnListed(n: nat, p: Prog, job: Job, prev: Entry, ans: Answers, k: bool -> Prog, l: Lane, owner: Owner, refs: set<string>)
    requires OwnJob(job, l, owner) && ans == l.script.egress && OwnAll(n, k, l, owner, refs) && RefIds(prev) <= refs
    requires p.Do? && p.call == ListMarked(job.app)
    requires forall r: Reply :: r.Found? ==> p.next(r) == DiffProg(job, prev, TrackedIn(prev, r.v, ans.pick), ans, k)
    ensures Own(n, p, l, owner, refs)
  {
    hide Own;
    hide OwnAll;
    hide TrackedIn;
    hide DiffProg;
    hide RefIds;
    hide RefsIn;
    if n == 0 {
      OwnNone(p, l, owner, refs);
    } else {
      forall r | Legal(p.call, r, l) ensures Own(n - 1, p.next(r), l, owner, refs + Gains(p.call, r)) {
        var refs' := refs + r.v.Keys;
        OwnAllMore(n, n - 1, k, l, owner, refs, refs');
        TrackedRefs(prev, r.v, ans.pick, refs');
        OwnDiff(n - 1, job, prev, TrackedIn(prev, r.v, ans.pick), ans, k, l, owner, refs');
      }
      OwnIs(n, p, l, owner, refs);
    }
  }

  lemma {:induction false} OwnRemoveAll(n: nat, gs: seq<GatewayRef>, remove: string -> RemoveAnswers, ok: bool, k: bool -> Prog,
                                        l: Lane, owner: Owner, refs: set<string>)
    requires (forall g :: g in gs ==> g.serviceId in refs) && OwnAll(n, k, l, owner, refs)
    ensures Own(n, RemoveAllProg(gs, remove, ok, k), l, owner, refs)
    decreases gs
  {
    hide Own;
    hide OwnAll;
    hide RemoveGatewayProg;
    if gs == [] {
      OwnOne(n, k, ok, l, owner, refs);
    } else {
      var rest := (done: bool) => RemoveAllProg(gs[1..], remove, ok && done, k);
      forall b ensures Own(n, rest(b), l, owner, refs) { OwnRemoveAll(n, gs[1..], remove, ok && b, k, l, owner, refs); }
      OwnRemove(n, gs[0], remove(gs[0].target), rest, l, owner, refs);
    }
  }

  lemma OwnStoreProg(n: nat, drop: bool, e: Entry, k: Prog, l: Lane, owner: Owner, refs: set<string>)
    requires RefIds(e) <= refs && Own(n, k, l, owner, refs)
    ensures Own(n, StoreProg(l.app, drop, e, k), l, owner, refs)
  {
    hide Own;
    hide RefIds;
    var p := StoreProg(l.app, drop, e, k);
    OwnStore(n, p.call, p, k, l, owner, refs);
  }

  lemma OwnTeardownEgress(n: nat, remove: string -> RemoveAnswers, k: bool -> Prog, l: Lane, owner: Owner, refs: set<string>)
    requires OwnAll(n, k, l, owner, refs)
    ensures Own(n, TeardownEgressProg(l.app, remove, k), l, owner, refs)
  {
    hide Own;
    hide OwnAll;
    hide RemoveAllProg;
    hide StoreProg;
    var p := TeardownEgressProg(l.app, remove, k);
    if n == 0 {
      OwnNone(p, l, owner, refs);
    } else {
      forall r | Legal(p.call, r, l) ensures Own(n - 1, p.next(r), l, owner, refs + Gains(p.call, r)) {
        var refs' := refs + RefIds(r.e);
        OwnAllMore(n, n - 1, k, l, owner, refs, refs');
        OwnOne(n - 1, k, true, l, owner, refs');
        assert OwnAll(n - 1, EgressGone(l.app, r.e, k), l, owner, refs') by { OwnEgressGone(n - 1, r.e, k, l, owner, refs'); }
        OwnRemoveAll(n - 1, r.e.gateways, remove, true, EgressGone(l.app, r.e, k), l, owner, refs');
      }
      OwnIs(n, p, l, owner, refs);
    }
  }

  lemma OwnEgressGone(n: nat, prev: Entry, k: bool -> Prog, l: Lane, owner: Owner, refs: set<string>)
    requires OwnAll(n, k, l, owner, refs)
    ensures OwnAll(n, EgressGone(l.app, prev, k), l, owner, refs)
  {
    hide Own;
    hide StoreProg;
    forall b ensures Own(n, EgressGone(l.app, prev, k)(b), l, owner, refs) {
      var e := prev.(gateways := [], gatewayHash := NoSetHash);
      assert RefIds(e) == {};
      OwnStoreProg(n, prev.proxy.None?, e, k(b), l, owner, refs);
    }
  }

  lemma OwnClosed(n: nat, proxy: Option<nat>, k: Prog, l: Lane, owner: Owner, refs: set<string>)
    requires Own(n, k, l, owner, refs)
    ensures Own(n, ClosedProg(proxy, k), l, owner, refs)
  {
    hide Own;
    hide RefIds;
    if proxy.Some? {
      var p := ClosedProg(proxy, k);
      if n == 0 {
        OwnNone(p, l, owner, refs);
      } else {
        OwnMore(n, n - 1, k, l, owner, refs, refs);
        forall r | Legal(p.call, r, l) ensures Own(n - 1, p.next(r), l, owner, refs + Gains(p.call, r)) {
          Quiet(p.call, r, l);
          assert refs + {} == refs;
        }
        OwnIs(n, p, l, owner, refs);
      }
    }
  }

  lemma OwnIngressGone(n: nat, prev: Entry, a: IngressAnswers, k: bool -> Prog, l: Lane, owner: Owner, refs: set<string>)
    requires RefIds(prev) <= refs && OwnAll(n, k, l, owner, refs)
    ensures Own(n, IngressGone(l.app, prev, a, k), l, owner, refs)
  {
    hide Own;
    hide OwnAll;
    hide StoreProg;
    OwnOne(n, k, false, l, owner, refs);
    var ok := (prev.proxy.None? || a.close) && (prev.preAuthKey == "" || a.expire);
    var e := prev.(proxy := None, specHash := NoProxyHash, preAuthKey := "");
    OwnOne(n, k, ok, l, owner, refs);
    assert RefIds(e) == RefIds(prev);
    OwnStoreProg(n, prev.gateways == [], e, k(ok), l, owner, refs);
    OwnExpire(n, prev.preAuthKey, StoreProg(l.app, prev.gateways == [], e, k(ok)), l, owner, refs);
  }

  lemma OwnTeardownIngress(n: nat, a: IngressAnswers, k: bool -> Prog, l: Lane, owner: Owner, refs: set<string>)
    requires OwnAll(n, k, l, owner, refs)
    ensures Own(n, TeardownIngressProg(l.app, a, k), l, owner, refs)
  {
    hide Own;
    hide OwnAll;
    hide ClosedProg;
    hide IngressGone;
    hide RefIds;
    var p := TeardownIngressProg(l.app, a, k);
    if n == 0 {
      OwnNone(p, l, owner, refs);
    } else {
      forall r | Legal(p.call, r, l) ensures Own(n - 1, p.next(r), l, owner, refs + Gains(p.call, r)) {
        var refs' := refs + RefIds(r.e);
        OwnAllMore(n, n - 1, k, l, owner, refs, refs');
        OwnOne(n - 1, k, true, l, owner, refs');
        OwnIngressGone(n - 1, r.e, a, k, l, owner, refs');
        OwnClosed(n - 1, r.e.proxy, IngressGone(l.app, r.e, a, k), l, owner, refs');
      }
      OwnIs(n, p, l, owner, refs);
    }
  }

  /** Once the new proxy runs: it is stored, the old one closed and its key given back. */
  lemma OwnSwap(n: nat, p: Prog, prev: Entry, k: bool -> Prog, l: Lane, owner: Owner, refs: set<string>)
    requires OwnAll(n, k, l, owner, refs) && RefIds(prev) <= refs
    requires p.Do? && p.call.PutEntry? && p.call.id == l.app && RefIds(p.call.e) <= refs
    requires forall r :: p.next(r) ==
               ClosedProg(prev.proxy, if prev.proxy.None? then k(true) else Do(ExpireKey(prev.preAuthKey), (_: Reply) => k(true)))
    ensures Own(n, p, l, owner, refs)
  {
    hide Own;
    hide OwnAll;
    hide ClosedProg;
    hide RefIds;
    OwnOne(n, k, true, l, owner, refs);
    OwnExpire(n, prev.preAuthKey, k(true), l, owner, refs);
    var rest := if prev.proxy.None? then k(true) else Do(ExpireKey(prev.preAuthKey), (_: Reply) => k(true));
    OwnClosed(n, prev.proxy, rest, l, owner, refs);
    OwnStore(n, p.call, p, ClosedProg(prev.proxy, rest), l, owner, refs);
  }

  lemma OwnStarting(n: nat, p: Prog, prev: Entry, config: ProxyConfig, key: Key, a: IngressAnswers, k: bool -> Prog, l: Lane, owner: Owner, refs: set<string>)
    requires OwnAll(n, k, l, owner, refs) && RefIds(prev) <= refs && a == l.script.ingress
    requires p.Do? && p.call == Start(Launch(config, key.secret), a.start)
    requires forall r: Reply :: r.Started? && r.proxy.None? ==> p.next(r) == Do(ExpireKey(key.id), (_: Reply) => k(false))
    requires forall r: Reply :: r.Started? && r.proxy.Some? ==>
               && p.next(r).Do? && p.next(r).call == PutEntry(l.app, prev.(proxy := r.proxy, specHash := HashOf(config), preAuthKey := key.id))
               && forall r2 :: p.next(r).next(r2) ==
                    ClosedProg(prev.proxy, if prev.proxy.None? then k(true) else Do(ExpireKey(prev.preAuthKey), (_: Reply) => k(true)))
    ensures Own(n, p, l, owner, refs)
  {
    hide Own;
    hide OwnAll;
    hide ClosedProg;
    if n == 0 {
      OwnNone(p, l, owner, refs);
    } else {
      OwnAllMore(n, n - 1, k, l, owner, refs, refs);
      OwnOne(n - 1, k, false, l, owner, refs);
      OwnExpire(n - 1, key.id, k(false), l, owner, refs);
      forall r | Legal(p.call, r, l) ensures Own(n - 1, p.next(r), l, owner, refs + Gains(p.call, r)) {
        Quiet(p.call, r, l);
        assert refs + {} == refs;
        if r.proxy.Some? {
          assert RefIds(prev.(proxy := r.proxy, specHash := HashOf(config), preAuthKey := key.id)) == RefIds(prev);
          OwnSwap(n - 1, p.next(r), prev, k, l, owner, refs);
        }
      }
      OwnIs(n, p, l, owner, refs);
    }
  }

  lemma OwnRotate(n: nat, prev: Entry, config: ProxyConfig, a: IngressAnswers, k: bool -> Prog, l: Lane, owner: Owner, refs: set<string>)
    requires OwnAll(n, k, l, owner, refs) && RefIds(prev) <= refs && a == l.script.ingress
    ensures Own(n, RotateProg(l.app, prev, config, a, k), l, owner, refs)
  {
    hide Own;
    hide OwnAll;
    hide ClosedProg;
    hide RefIds;
    var p := RotateProg(l.app, prev, config, a, k);
    if n == 0 {
      OwnNone(p, l, owner, refs);
    } else {
      OwnAllMore(n, n - 1, k, l, owner, refs, refs);
      OwnOne(n - 1, k, false, l, owner, refs);
      forall r | Legal(p.call, r, l) ensures Own(n - 1, p.next(r), l, owner, refs + Gains(p.call, r)) {
        Quiet(p.call, r, l);
        assert refs + {} == refs;
        if r.key.Some? {
          OwnStarting(n - 1, p.next(r), prev, config, r.key.value, a, k, l, owner, refs);
        }
      }
      OwnIs(n, p, l, owner, refs);
    }
  }

  lemma OwnIngress(n: nat, tgt: Target, cfg: Config, a: IngressAnswers, k: bool -> Prog, l: Lane, owner: Owner, refs: set<string>)
    requires OwnAll(n, k, l, owner, refs) && a == l.script.ingress
    ensures Own(n, IngressProg(l.app, tgt, cfg, a, k), l, owner, refs)
  {
    hide Own;
    hide OwnAll;
    hide TeardownIngressProg;
    hide RotateProg;
    hide HashOf;
    hide RefIds;
    var p := IngressProg(l.app, tgt, cfg, a, k);
    if !tgt.ingress {
      OwnTeardownIngress(n, a, k, l, owner, refs);
    } else if n == 0 {
      OwnNone(p, l, owner, refs);
    } else {
      forall r | Legal(p.call, r, l) ensures Own(n - 1, p.next(r), l, owner, refs + Gains(p.call, r)) {
        var refs' := refs + RefIds(r.e);
        OwnAllMore(n, n - 1, k, l, owner, refs, refs');
        OwnOne(n - 1, k, false, l, owner, refs');
        OwnOne(n - 1, k, true, l, owner, refs');
        var hash := HashOf(ProxyConfigFor(tgt, cfg));
        if r.e.specHash == hash && r.e.proxy.Some? {
          OwnStore(n - 1, PutEntry(l.app, r.e), p.next(r), k(true), l, owner, refs');
        } else if a.wait {
          OwnRotate(n - 1, r.e, ProxyConfigFor(tgt, cfg), a, k, l, owner, refs');
        }
      }
      OwnIs(n, p, l, owner, refs);
    }
  }

  // ---------- the whole pass ----------

  lemma OwnTeardown(n: nat, s: Script, k: bool -> Prog, l: Lane, owner: Owner, refs: set<string>)
    requires OwnAll(n, k, l, owner, refs)
    ensures Own(n, TeardownProg(l.app, s, k), l, owner, refs)
  {
    hide Own;
    hide TeardownIngressProg;
    hide TeardownEgressProg;
    hide RefIds;
    var rest := (ok1: bool) =>
      TeardownEgressProg(l.app, s.egress.remove, (ok2: bool) => Do(DropEntry(l.app), (_: Reply) => k(ok1 && ok2)));
    forall ok1 ensures Own(n, rest(ok1), l, owner, refs) {
      var last := (ok2: bool) => Do(DropEntry(l.app), (_: Reply) => k(ok1 && ok2));
      forall ok2 ensures Own(n, last(ok2), l, owner, refs) {
        OwnStore(n, DropEntry(l.app), last(ok2), k(ok1 && ok2), l, owner, refs);
      }
      OwnTeardownEgress(n, s.egress.remove, last, l, owner, refs);
    }
    OwnTeardownIngress(n, s.ingress, rest, l, owner, refs);
  }

  lemma OwnDone(n: nat, ok: bool, l: Lane, owner: Owner, refs: set<string>)
    ensures Own(n, Done(ok), l, owner, refs)
  {
  }

  lemma OwnBoth(n: nat, d: Daemon, tgt: Target, s: Script, l: Lane, owner: Owner, refs: set<string>)
    requires s == l.script && (tgt.egress.Some? ==> OwnJob(Job(d.cfg, l.app, tgt.egress.value, d.image), l, owner))
    ensures Own(n, IngressProg(l.app, tgt, d.cfg, s.ingress, (ok1: bool) =>
                     EgressStepProg(d, l.app, tgt, s.egress, (ok2: bool) => Done(ok1 && ok2))), l, owner, refs)
  {
    hide Own;
    hide IngressProg;
    hide EgressProg;
    hide TeardownEgressProg;
    hide OwnJob;
    var rest := (ok1: bool) => EgressStepProg(d, l.app, tgt, s.egress, (ok2: bool) => Done(ok1 && ok2));
    forall ok1 ensures Own(n, rest(ok1), l, owner, refs) {
      var last := (ok2: bool) => Done(ok1 && ok2);
      forall ok2 ensures Own(n, last(ok2), l, owner, refs) { OwnDone(n, ok1 && ok2, l, owner, refs); }
      if tgt.egress.None? {
        OwnTeardownEgress(n, s.egress.remove, last, l, owner, refs);
      } else {
        OwnEgress(n, Job(d.cfg, l.app, tgt.egress.value, d.image), s.egress, last, l, owner, refs);
      }
    }
    OwnIngress(n, tgt, d.cfg, s.ingress, rest, l, owner, refs);
  }

  /** What Docker says of the app's own service. */
  function Shown(l: Lane): Services { if l.own.Some? then map[l.app := l.own.value] else map[] }

  /** The names the pass will ask for, if it asks for egress, are its own. */
  ghost predicate AsksOwn(d: Daemon, l: Lane, owner: Owner) {
    var v := Decide(Shown(l), d, l.app, l.script);
    v.Up? && v.target.egress.Some? ==> JobOwns(Job(d.cfg, l.app, v.target.egress.value, d.image), owner)
  }

  lemma OwnInspected(n: nat, d: Daemon, l: Lane, owner: Owner, refs: set<string>)
    requires AsksOwn(d, l, owner) && l.script.inspect
    ensures Own(n, InspectedProg(d, l.app, l.script, Shown(l)), l, owner, refs)
  {
    hide Own;
    hide ParseLabels;
    hide IsGateway;
    hide TeardownProg;
    hide IngressProg;
    hide EgressStepProg;
    hide JobOwns;
    var s, v := l.script, Shown(l);
    forall ok ensures Own(n, Done(ok), l, owner, refs) { OwnDone(n, ok, l, owner, refs); }
    assert OwnAll(n, (ok: bool) => Done(ok), l, owner, refs);
    assert OwnAll(n, (ok: bool) => Done(false), l, owner, refs);
    hide OwnAll;
    OwnTeardown(n, s, (ok: bool) => Done(ok), l, owner, refs);
    OwnTeardown(n, s, (ok: bool) => Done(false), l, owner, refs);
    if l.app in v && !IsGateway(v[l.app].spec) && s.networks.Some? {
      var o := ParseLabels(d.rules, v[l.app].spec, s.networks.value);
      if o.Enabled? {
        assert Decide(v, d, l.app, s) == Up(o.target);
        OwnBoth(n, d, o.target, s, l, owner, refs);
      }
    }
  }

  /** The program of a pass makes only its own calls. */
  lemma OwnReconcile(n: nat, d: Daemon, l: Lane, owner: Owner)
    requires AsksOwn(d, l, owner)
    ensures Own(n, ReconcileProg(d, l.app, l.script), l, owner, {})
  {
    hide Own;
    hide InspectedProg;
    hide AsksOwn;
    hide Gains;
    var p := ReconcileProg(d, l.app, l.script);
    if n == 0 {
      OwnNone(p, l, owner, {});
    } else if !l.script.inspect {
      OwnDone(n, false, l, owner, {});
    } else {
      forall r | Legal(p.call, r, l) ensures Own(n - 1, p.next(r), l, owner, {} + Gains(p.call, r)) {
        Quiet(p.call, r, l);
        assert r.v == Shown(l);
        assert {} + Gains(p.call, r) == {};
        OwnInspected(n - 1, d, l, owner, {});
      }
      OwnIs(n, p, l, owner, {});
    }
  }
}
