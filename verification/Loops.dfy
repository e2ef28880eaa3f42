/** What the three loops of reconcileEgress (adopt, remove, put) keep, for every order of
    map iteration and every answer of the outside world. */
module Loops {
  import opened Text
  import opened Sorting
  import opened Targets
  import opened Gateway
  import opened World
  import opened Egress
  import opened Mirror

  // ---------- the record ----------

  ghost predicate StrictlySorted(refs: seq<GatewayRef>) {
    forall i, j :: 0 <= i < j < |refs| ==> refs[i].target != refs[j].target && Leq(refs[i].target, refs[j].target)
  }

  lemma {:induction false} StoreIndexRefs(refs: seq<GatewayRef>)
    requires forall i, j :: 0 <= i < j < |refs| ==> refs[i].target != refs[j].target
    ensures forall i :: 0 <= i < |refs| ==> refs[i].target in StoreIndex(refs) && StoreIndex(refs)[refs[i].target] == refs[i]
    ensures forall a :: a in StoreIndex(refs) ==> StoreIndex(refs)[a] in refs && StoreIndex(refs)[a].target == a
  {
    if refs != [] {
      StoreIndexRefs(refs[..|refs| - 1]);
    }
  }

  lemma {:induction false} ValuesAt(m: map<string, GatewayRef>, keys: seq<string>)
    requires forall k :: k in keys ==> k in m
    ensures |Values(m, keys)| == |keys|
    ensures forall i :: 0 <= i < |keys| ==> Values(m, keys)[i] == m[keys[i]]
  {
    if keys != [] {
      ValuesAt(m, keys[1..]);
    }
  }

  lemma SortedKeysDistinct(s: set<string>, pick: Picker)
    ensures var keys := Sort(Leq, Enumerate(s, pick));
            |keys| == |s| && forall i, j :: 0 <= i < j < |keys| ==> keys[i] != keys[j]
  {
    hide Leq;
    hide Enumerate;
    hide Sort;
    var keys := Sort(Leq, Enumerate(s, pick));
    SortedKeys(s, pick);
    forall i, j | 0 <= i < j < |keys| ensures keys[i] != keys[j] {
      assert multiset(s)[keys[i]] <= 1;
      if keys[i] == keys[j] {
        TwiceInSeq(keys, i, j);
      }
    }
    assert |keys| == |multiset(keys)| == |multiset(s)| == |s|;
  }

  lemma ValuesSorted(m: map<string, GatewayRef>, keys: seq<string>)
    requires forall a :: a in m ==> m[a].target == a
    requires forall k :: k in keys <==> k in m
    requires forall i, j :: 0 <= i < j < |keys| ==> keys[i] != keys[j] && Leq(keys[i], keys[j])
    ensures StrictlySorted(Values(m, keys)) && |Values(m, keys)| == |keys|
    ensures forall r :: r in Values(m, keys) ==> r.target in m && m[r.target] == r
    ensures forall a :: a in m ==> m[a] in Values(m, keys)
  {
    hide Leq;
    hide Values;
    ValuesAt(m, keys);
    var r := Values(m, keys);
    forall a | a in m ensures m[a] in r {
      assert a in keys;
      var i :| 0 <= i < |keys| && keys[i] == a;
      assert r[i] == m[a];
    }
  }

  lemma SortedGatewaysRefs(m: map<string, GatewayRef>, pick: Picker)
    requires forall a :: a in m ==> m[a].target == a
    ensures StrictlySorted(SortedGateways(m, pick)) && |SortedGateways(m, pick)| == |m|
    ensures forall r :: r in SortedGateways(m, pick) ==> r.target in m && m[r.target] == r
    ensures forall a :: a in m ==> m[a] in SortedGateways(m, pick)
  {
    hide Leq;
    hide Enumerate;
    hide Sort;
    hide Values;
    hide StrictlySorted;
    var keys := Sort(Leq, Enumerate(m.Keys, pick));
    SortedKeys(m.Keys, pick);
    SortedKeysDistinct(m.Keys, pick);
    ValuesSorted(m, keys);
  }

  /** sortedGateways lists the map once each, in target order, whatever order the map was
      ranged over; indexing the list gives the map back. */
  lemma SortedGatewaysExact(m: map<string, GatewayRef>, pick: Picker)
    requires forall a :: a in m ==> m[a].target == a
    ensures StrictlySorted(SortedGateways(m, pick))
    ensures forall r :: r in SortedGateways(m, pick) <==> r.target in m && m[r.target] == r
    ensures StoreIndex(SortedGateways(m, pick)) == m
    ensures |SortedGateways(m, pick)| == |m|
  {
    hide Leq;
    hide SortedGateways;
    hide StoreIndex;
    SortedGatewaysRefs(m, pick);
    var r := SortedGateways(m, pick);
    StoreIndexRefs(r);
    var index := StoreIndex(r);
    forall a | a in m ensures a in index && index[a] == m[a] {
      var i :| 0 <= i < |r| && r[i] == m[a];
    }
  }

  lemma TwiceInSeq<T>(s: seq<T>, i: nat, j: nat)
    requires i < j < |s| && s[i] == s[j]
    ensures multiset(s)[s[i]] >= 2
  {
    assert s == s[..j] + s[j..];
    assert s[i] in s[..j] && s[j] in s[j..];
    assert multiset(s[..j])[s[i]] >= 1 && multiset(s[j..])[s[j]] >= 1;
    assert multiset(s) == multiset(s[..j]) + multiset(s[j..]);
  }

  /** The lines of the app's store record, by address. */
  function Lines(w: World, app: string): map<string, GatewayRef> { StoreIndex(EntryOf(w, app).gateways) }

  /** The app's store record has one line per address; each describes a running gateway, or
      has outlived it. */
  ghost predicate Recorded(w: World, app: string) {
    && StrictlySorted(EntryOf(w, app).gateways)
    && AllTracked(w, app, Lines(w, app))
    && Linked(w.services, app, Lines(w, app))
  }

  lemma LinesAre(w: World, app: string)
    requires StrictlySorted(EntryOf(w, app).gateways)
    ensures forall r :: r in EntryOf(w, app).gateways <==> r.target in Lines(w, app) && Lines(w, app)[r.target] == r
    ensures forall a :: a in Lines(w, app) ==> Lines(w, app)[a].target == a
  {
    hide StoreIndex;
    hide Leq;
    var refs := EntryOf(w, app).gateways;
    StoreIndexRefs(refs);
    forall r | r in refs ensures r.target in Lines(w, app) && Lines(w, app)[r.target] == r {
      var i :| 0 <= i < |refs| && refs[i] == r;
    }
  }

  // ---------- trackedGateways ----------

  lemma {:induction false} AdoptCovers(w: World, cfg: Config, app: string, out: map<string, GatewayRef>,
                                       known: set<string>, todo: set<string>, pick: Picker)
    requires Sound(w, cfg, app) && todo <= Gateways(w, app)
    requires forall s :: Runs(w.services, app, s) && (s !in todo || s in known) ==> AddrOf(w.services, s) in out
    ensures var r := Adopt(w, out, known, todo, pick);
            && Covers(w.services, app, r, {})
            && (forall a :: a in out ==> a in r && r[a] == out[a])
            && (forall a :: a in r && a !in out ==> Describes(w.services, app, a, r[a]) && r[a].serviceId !in known)
    decreases todo
  {
    hide TargetAddr;
    hide LiveHash;
    hide MarkedFor;
    hide Built;
    hide UniqueNames;
    if todo != {} {
      var s := pick(todo);
      var addr := TargetAddr(w.services[s].spec);
      assert Runs(w.services, app, s) && AddrOf(w.services, s) == addr;
      BuiltAddr(cfg, app, w.services[s].spec);
      var out' :=
        if s in known || addr == "" || addr in out then out
        else out[addr := GatewayRef(addr, s, "", LiveHash(w.services[s].spec))];
      AdoptCovers(w, cfg, app, out', known, todo - {s}, pick);
    }
  }

  lemma KnownService(tracked: map<string, GatewayRef>, a: string)
    requires a in tracked
    ensures tracked[a].serviceId in KnownServices(tracked)
  {
  }

  /** From a sound state the working map is the record and, beside it, every running gateway
      not recorded. */
  lemma TrackedMirrors(w: World, cfg: Config, app: string, pick: Picker)
    requires Sound(w, cfg, app) && Recorded(w, app)
    ensures var tracked := Tracked(w, app, pick);
            var out := Lines(w, app);
            && AllTracked(w, app, tracked) && Covers(w.services, app, tracked, {})
            && Submap(out, tracked)
            && (forall a :: a in tracked && a !in out ==>
                  Describes(w.services, app, a, tracked[a]) && forall b :: b in out ==> out[b].serviceId != tracked[a].serviceId)
  {
    hide TargetAddr;
    hide LiveHash;
    hide Adopt;
    hide Sound;
    hide Describes;
    hide Lapsed;
    hide StoreIndex;
    hide StrictlySorted;
    var out := StoreIndex(EntryOf(w, app).gateways);
    forall s | Runs(w.services, app, s) && s in KnownServices(out) ensures AddrOf(w.services, s) in out {
      var a :| a in out && out[a].serviceId == s;
    }
    AdoptCovers(w, cfg, app, out, KnownServices(out), Gateways(w, app), pick);
    var tracked := Tracked(w, app, pick);
    forall a, b | a in tracked && a !in out && b in out ensures out[b].serviceId != tracked[a].serviceId {
      KnownService(out, b);
    }
  }

  // ---------- the removal loop ----------

  /** The state of a pass between two iterations; `gone` are addresses whose update failed. */
  ghost predicate Reconciling(p: Pass, cfg: Config, app: string, gone: set<string>) {
    && Sound(p.w, cfg, app)
    && AllTracked(p.w, app, p.tracked)
    && Linked(p.w.services, app, p.tracked)
    && Covers(p.w.services, app, p.tracked, gone)
  }

  ghost predicate Submap<K, V>(m': map<K, V>, m: map<K, V>) {
    forall k :: k in m' ==> k in m && m'[k] == m[k]
  }

  /** The deletion itself goes through. */
  predicate Deleted(a: RemoveAnswers) { a.wait && a.removed }

  predicate SmoothRemove(a: RemoveAnswers) { a.wait && a.removed && a.waitExpire }

  lemma SubmapSound(w: World, w': World, cfg: Config, app: string)
    requires Sound(w, cfg, app) && Submap(w'.services, w.services) && w'.ids == w.ids
    ensures Sound(w', cfg, app)
  {
    hide TargetAddr;
    hide MarkedFor;
    hide Built;
    forall s | Runs(w'.services, app, s) ensures Runs(w.services, app, s) {}
  }

  lemma SubmapClear(v: Services, v': Services, job: Job, t: EgressTarget)
    requires NameClear(v, job, t) && Submap(v', v)
    ensures NameClear(v', job, t)
  {
    hide TargetAddr;
    hide MarkedFor;
    hide WantName;
    hide Addr;
    forall s | s in v' && v'[s].spec.name == WantName(job, t)
      ensures if Runs(v', job.app, s) then AddrOf(v', s) == Addr(t)
              else forall g :: Runs(v', job.app, g) ==> AddrOf(v', g) != Addr(t) {
      assert Runs(v', job.app, s) <==> Runs(v, job.app, s);
      forall g | Runs(v', job.app, g) ensures Runs(v, job.app, g) {}
    }
  }

  /** What a removal step does, fault by fault. */
  lemma RemoveOneExact(p: Pass, addr: string, a: RemoveAnswers)
    requires addr in p.tracked
    ensures var p' := RemoveOne(p, addr, a);
            && p'.w.services == (if Deleted(a) then p.w.services - {p.tracked[addr].serviceId} else p.w.services)
            && (p'.tracked == p.tracked || (Deleted(a) && p'.tracked == p.tracked - {addr}))
            && (SmoothRemove(a) ==> p'.tracked == p.tracked - {addr} && p'.ok == p.ok)
            && p'.w.ids == p.w.ids && p'.w.minted == p.w.minted && p'.w.store == p.w.store
  {
  }

  lemma RemovedTracks(w: World, w': World, app: string, sid: string, a: string, ref: GatewayRef)
    requires Tracks(w, app, a, ref) && OnePerAddr(w.services, app) && w'.ids == w.ids && w.services.Keys <= w.ids
    requires w'.services == w.services - {sid} || w'.services == w.services
    ensures Tracks(w', app, a, ref)
  {
    hide TargetAddr;
    hide LiveHash;
    hide MarkedFor;
    forall s | Runs(w'.services, app, s) ensures Runs(w.services, app, s) && AddrOf(w'.services, s) == AddrOf(w.services, s) {}
  }

  lemma RemoveOneKeeps(p: Pass, cfg: Config, app: string, gone: set<string>, addr: string, a: RemoveAnswers)
    requires Reconciling(p, cfg, app, gone) && addr in p.tracked
    ensures Reconciling(RemoveOne(p, addr, a), cfg, app, gone)
  {
    hide TargetAddr;
    hide LiveHash;
    hide MarkedFor;
    hide Built;
    hide RemoveOne;
    hide UniqueNames;
    hide AllBuilt;
    var p' := RemoveOne(p, addr, a);
    RemoveOneExact(p, addr, a);
    SubmapSound(p.w, p'.w, cfg, app);
    forall b | b in p'.tracked ensures Tracks(p'.w, app, b, p'.tracked[b]) {
      RemovedTracks(p.w, p'.w, app, p.tracked[addr].serviceId, b, p.tracked[b]);
    }
    forall s | Runs(p'.w.services, app, s)
      ensures Runs(p.w.services, app, s) && AddrOf(p'.w.services, s) == AddrOf(p.w.services, s)
      ensures p'.tracked != p.tracked ==> AddrOf(p'.w.services, s) != addr {
      assert Tracks(p.w, app, addr, p.tracked[addr]);
    }
    assert Linked(p'.w.services, app, p'.tracked);
  }

  /** The services a removal of the addresses `bs` deletes. */
  function RemovedIds(tracked: map<string, GatewayRef>, bs: set<string>, remove: string -> RemoveAnswers): set<string> {
    set b | b in bs && b in tracked && Deleted(remove(b)) :: tracked[b].serviceId
  }

  lemma RemovedOneMore(v: Services, v1: Services, m: map<string, GatewayRef>, m1: map<string, GatewayRef>,
                       addr: string, bs: set<string>, remove: string -> RemoveAnswers)
    requires addr in m && addr in bs && (m1 == m || m1 == m - {addr})
    requires v1 == if Deleted(remove(addr)) then v - {m[addr].serviceId} else v
    ensures v1 - RemovedIds(m1, bs - {addr}, remove) == v - RemovedIds(m, bs, remove)
  {
    var one := if Deleted(remove(addr)) then {m[addr].serviceId} else {};
    forall s ensures s in one + RemovedIds(m1, bs - {addr}, remove) <==> s in RemovedIds(m, bs, remove) {
      if s in RemovedIds(m, bs, remove) {
        var b :| b in bs && b in m && Deleted(remove(b)) && m[b].serviceId == s;
        if b != addr {
          assert b in m1 && m1[b] == m[b];
        }
      }
    }
    assert v1 == v - one;
  }

  /** The removal loop, whatever fails. */
  lemma {:induction false} RemoveLoopKeeps(p: Pass, cfg: Config, app: string, keep: set<string>, todo: set<string>, ans: Answers)
    requires Reconciling(p, cfg, app, {}) && todo <= p.tracked.Keys
    ensures var p' := RemoveLoop(p, keep, todo, ans);
            && Reconciling(p', cfg, app, {})
            && Submap(p'.tracked, p.tracked) && p.tracked.Keys - (todo - keep) <= p'.tracked.Keys
            && p'.w.services == p.w.services - RemovedIds(p.tracked, todo - keep, ans.remove)
            && ((forall a :: SmoothRemove(ans.remove(a))) ==> p'.tracked.Keys <= p.tracked.Keys - (todo - keep) && p'.ok == p.ok)
            && p'.w.ids == p.w.ids && p'.w.minted == p.w.minted && p'.w.store == p.w.store
    decreases todo
  {
    hide Reconciling;
    hide RemoveOne;
    hide RemovedIds;
    if todo == {} {
      assert RemovedIds(p.tracked, {}, ans.remove) == {} by { NoneRemoved(p.tracked, ans.remove); }
      assert p.w.services - {} == p.w.services && todo - keep == {};
    } else {
      var addr := ans.pick(todo);
      if addr in keep {
        assert (todo - {addr}) - keep == todo - keep;
        RemoveLoopKeeps(p, cfg, app, keep, todo - {addr}, ans);
      } else {
        var p1 := RemoveOne(p, addr, ans.remove(addr));
        RemoveOneKeeps(p, cfg, app, {}, addr, ans.remove(addr));
        RemoveOneExact(p, addr, ans.remove(addr));
        RemoveLoopKeeps(p1, cfg, app, keep, todo - {addr}, ans);
        assert (todo - {addr}) - keep == (todo - keep) - {addr};
        RemovedOneMore(p.w.services, p1.w.services, p.tracked, p1.tracked, addr, todo - keep, ans.remove);
      }
    }
  }

  lemma NoneRemoved(tracked: map<string, GatewayRef>, remove: string -> RemoveAnswers)
    ensures RemovedIds(tracked, {}, remove) == {}
  {
  }

  // ---------- the put loop ----------

  function KeyIds(a: PutAnswers): set<string> {
    (if a.update.key.Some? then {a.update.key.value.id} else {}) +
    (if a.create.key.Some? then {a.create.key.value.id} else {})
  }

  function NewIds(a: PutAnswers): set<string> { if a.create.id.Some? then {a.create.id.value} else {} }

  /** The in-place update of `t` is attempted: it is tracked with another hash. */
  predicate Attempted(p: Pass, job: Job, t: EgressTarget) {
    Addr(t) in p.tracked && p.tracked[Addr(t)].hash != WantHash(job, t)
  }

  /** The address of `t`, if its in-place update fails on a service that runs. */
  function Strands(p: Pass, job: Job, t: EgressTarget, a: PutAnswers): set<string> {
    if Attempted(p, job, t) && p.tracked[Addr(t)].serviceId in p.w.services
       && UpdateGateway(p.w, job, t, p.tracked[Addr(t)], a.update).1.UpdateFailed?
    then {Addr(t)} else {}
  }

  /** Nobody else tracks the gateway about to be updated. */
  ghost predicate UnsharedAt(p: Pass, job: Job, t: EgressTarget) {
    Attempted(p, job, t) && Describes(p.w.services, job.app, Addr(t), p.tracked[Addr(t)]) ==>
      forall b :: b in p.tracked && b != Addr(t) ==> p.tracked[b].serviceId != p.tracked[Addr(t)].serviceId
  }

  /** One desired target, under any answers: nothing changes but perhaps its line in
      `tracked`, or its gateway ends up placed as wanted. */
  ghost predicate PutResult(p: Pass, p': Pass, job: Job, t: EgressTarget) {
    && p'.tracked - {Addr(t)} == p.tracked - {Addr(t)}
    && (Addr(t) in p'.tracked ==> p'.tracked[Addr(t)].hash == WantHash(job, t))
    && p'.w.store == p.w.store && p.w.ids <= p'.w.ids
    && (|| (p'.w.services == p.w.services && p'.w.ids == p.w.ids && Submap(p'.tracked, p.tracked))
        || (&& Addr(t) in p'.tracked && p'.tracked[Addr(t)].target == Addr(t)
            && Placed(p.w, p'.w, job, t, p'.tracked[Addr(t)].serviceId)))
  }

  lemma PlacedReconciling(p: Pass, w': World, ok: bool, job: Job, t: EgressTarget, ref: GatewayRef, gone: set<string>)
    requires Reconciling(p, job.cfg, job.app, gone) && Good(t) && Placed(p.w, w', job, t, ref.serviceId)
    requires forall s :: Runs(p.w.services, job.app, s) && AddrOf(p.w.services, s) == Addr(t) ==> s == ref.serviceId
    requires ref.target == Addr(t) && ref.hash == WantHash(job, t)
    ensures Reconciling(Pass(w', p.tracked[Addr(t) := ref], ok), job.cfg, job.app, gone)
  {
    hide AddrOf;
    hide WantHash;
    hide Placed;
    hide Linked;
    hide Covers;
    hide AllTracked;
    hide Sound;
    hide Runs;
    hide Addr;
    hide Good;
    PlacedSound(p.w, w', job, t, ref.serviceId);
    PlacedTracks(p.w, w', job, t, ref.serviceId, p.tracked, ref);
    PlacedCovers(p.w, w', job, t, ref.serviceId, p.tracked, gone, ref);
  }

  /** The services stand as they were and a line of `tracked` may have gone, its address with
      nothing running or in `gone`. */
  lemma SameReconciling(p: Pass, p': Pass, cfg: Config, app: string, gone: set<string>, gone': set<string>, a: string)
    requires Reconciling(p, cfg, app, gone) && p'.w.services == p.w.services && p'.w.ids == p.w.ids && gone <= gone'
    requires p'.tracked == p.tracked ||
             (&& p'.tracked == p.tracked - {a}
              && (forall s :: Runs(p.w.services, app, s) && AddrOf(p.w.services, s) == a ==> a in gone')
              && (forall b :: b in p'.tracked && Runs(p.w.services, app, p.tracked[b].serviceId) ==>
                    AddrOf(p.w.services, p.tracked[b].serviceId) != a))
    ensures Reconciling(p', cfg, app, gone')
  {
    hide TargetAddr;
    hide LiveHash;
    hide MarkedFor;
    hide Built;
    hide Sound;
    SubmapSound(p.w, p'.w, cfg, app);
    forall b | b in p'.tracked ensures Tracks(p'.w, app, b, p'.tracked[b]) {
      assert Tracks(p.w, app, b, p.tracked[b]);
    }
  }

  ghost predicate NothingAt(v: Services, app: string, a: string) {
    forall s :: Runs(v, app, s) ==> AddrOf(v, s) != a
  }

  lemma UntrackedIsVacant(p: Pass, cfg: Config, app: string, gone: set<string>, a: string)
    requires Reconciling(p, cfg, app, gone) && a !in p.tracked && a !in gone
    ensures NothingAt(p.w.services, app, a)
  {
    hide Sound;
    hide AllTracked;
    hide Linked;
    hide Runs;
    hide AddrOf;
  }

  lemma PutByCreate(p: Pass, job: Job, t: EgressTarget, a: CreateAnswers, pick: Picker, gone: set<string>)
    requires Reconciling(p, job.cfg, job.app, gone) && Good(t) && Addr(t) !in p.tracked
    requires NothingAt(p.w.services, job.app, Addr(t))
    ensures var p' := CreateInto(p, job, t, a, pick);
            && Reconciling(p', job.cfg, job.app, gone) && PutResult(p, p', job, t)
            && (SmoothCreate(p.w, a) ==> Addr(t) in p'.tracked && p'.ok == p.ok)
            && (Addr(t) in p'.tracked ==> p'.tracked[Addr(t)].serviceId in p.w.services ==>
                  p'.tracked[Addr(t)].serviceId in Named(p.w, WantName(job, t)))
  {
    hide AddrOf;
    hide WantHash;
    hide WantName;
    hide CreateGateway;
    hide Placed;
    hide Reconciling;
    hide Runs;
    hide Addr;
    hide Good;
    hide SmoothCreate;
    assert Sound(p.w, job.cfg, job.app) by { ReconcilingSound(p, job.cfg, job.app, gone); }
    hide Sound;
    CreateOutcome(p.w, job, t, a, pick);
    var (w', r) := CreateGateway(p.w, job, t, a, pick);
    var p' := CreateInto(p, job, t, a, pick);
    if r.Some? {
      PlacedReconciling(p, w', p.ok, job, t, r.value, gone);
      PlacedGrows(p.w, w', job, t, r.value.serviceId);
      assert (p.tracked[Addr(t) := r.value]) - {Addr(t)} == p.tracked - {Addr(t)};
    } else {
      SameReconciling(p, p', job.cfg, job.app, gone, gone, Addr(t));
    }
  }

  lemma ReconcilingSound(p: Pass, cfg: Config, app: string, gone: set<string>)
    requires Reconciling(p, cfg, app, gone)
    ensures Sound(p.w, cfg, app)
  {
    hide Sound;
    hide AllTracked;
    hide Linked;
    hide Covers;
  }

  lemma PlacedGrows(w: World, w': World, job: Job, t: EgressTarget, sid: string)
    requires Placed(w, w', job, t, sid)
    ensures w.ids <= w'.ids
  {
    hide WantSpec;
    hide WantName;
  }

  /** Only `ref` can be running at its address. */
  lemma OnlyAt(p: Pass, cfg: Config, app: string, gone: set<string>, a: string)
    requires Reconciling(p, cfg, app, gone) && a in p.tracked
    ensures forall s :: Runs(p.w.services, app, s) && AddrOf(p.w.services, s) == a ==>
              s == p.tracked[a].serviceId && Describes(p.w.services, app, a, p.tracked[a])
    ensures p.tracked[a].serviceId !in p.w.services ==> NothingAt(p.w.services, app, a)
  {
    hide TargetAddr;
    hide LiveHash;
    hide MarkedFor;
    hide AllBuilt;
    hide UniqueNames;
    hide Linked;
    hide Covers;
    assert Tracks(p.w, app, a, p.tracked[a]);
  }

  lemma PutByUpdate(p: Pass, job: Job, t: EgressTarget, a: UpdateAnswers, gone: set<string>)
    requires Reconciling(p, job.cfg, job.app, gone) && Good(t) && Addr(t) in p.tracked
    ensures var ref := p.tracked[Addr(t)];
            var (w', r) := UpdateGateway(p.w, job, t, ref, a);
            && w'.store == p.w.store && p.w.ids <= w'.ids
            && (r.Vanished? ==> w' == p.w && NothingAt(p.w.services, job.app, Addr(t)))
            && (!r.Updated? ==> w'.services == p.w.services && w'.ids == p.w.ids)
            && (r.Updated? ==>
                  && Placed(p.w, w', job, t, r.ref.serviceId) && r.ref.hash == WantHash(job, t) && r.ref.serviceId == ref.serviceId
                  && Reconciling(Pass(w', p.tracked[Addr(t) := r.ref], p.ok), job.cfg, job.app, gone))
            && (SmoothUpdate(p.w, a) && Named(p.w, WantName(job, t)) <= {ref.serviceId} ==> !r.UpdateFailed?)
  {
    hide AddrOf;
    hide WantHash;
    hide WantName;
    hide UpdateGateway;
    hide Placed;
    hide Reconciling;
    hide Runs;
    hide Addr;
    hide Good;
    hide Describes;
    ReconcilingSound(p, job.cfg, job.app, gone);
    assert p.w.services.Keys <= p.w.ids by { SoundIds(p.w, job.cfg, job.app); }
    hide Sound;
    var ref := p.tracked[Addr(t)];
    UpdateOutcome(p.w, job, t, ref, a);
    OnlyAt(p, job.cfg, job.app, gone, Addr(t));
    var (w', r) := UpdateGateway(p.w, job, t, ref, a);
    if r.Updated? {
      PlacedReconciling(p, w', p.ok, job, t, r.ref, gone);
      PlacedGrows(p.w, w', job, t, ref.serviceId);
    }
    UpdateNeverFails(p.w, job, t, ref, a);
  }

  lemma SoundIds(w: World, cfg: Config, app: string)
    requires Sound(w, cfg, app)
    ensures w.services.Keys <= w.ids
  {
    hide UniqueNames;
    hide OnePerAddr;
    hide AllBuilt;
  }

  lemma UpdateNeverFails(w: World, job: Job, t: EgressTarget, ref: GatewayRef, a: UpdateAnswers)
    ensures SmoothUpdate(w, a) && ref.serviceId !in w.services ==> UpdateGateway(w, job, t, ref, a).1.Vanished?
  {
  }

  /** Every step of the put loop keeps the pass in order, whatever the answers and whatever
      the names. */
  lemma PutOneKeeps(p: Pass, job: Job, t: EgressTarget, a: PutAnswers, pick: Picker, gone: set<string>)
    requires Reconciling(p, job.cfg, job.app, gone) && Good(t) && Addr(t) !in gone && UnsharedAt(p, job, t)
    ensures var p' := PutOne(p, job, t, a, pick);
            PutResult(p, p', job, t) && Reconciling(p', job.cfg, job.app, gone + Strands(p, job, t, a))
  {
    hide WantHash;
    hide CreateInto;
    hide UpdateGateway;
    hide Placed;
    hide Reconciling;
    hide Addr;
    hide Good;
    hide Describes;
    var addr := Addr(t);
    var p' := PutOne(p, job, t, a, pick);
    if addr !in p.tracked {
      UntrackedIsVacant(p, job.cfg, job.app, gone, addr);
      PutByCreate(p, job, t, a.create, pick, gone);
      assert gone + {} == gone;
    } else if p.tracked[addr].hash == WantHash(job, t) {
      assert gone + {} == gone;
    } else {
      PutOneUpdates(p, job, t, a, pick, gone);
    }
  }

  lemma PutOneUpdates(p: Pass, job: Job, t: EgressTarget, a: PutAnswers, pick: Picker, gone: set<string>)
    requires Reconciling(p, job.cfg, job.app, gone) && Good(t) && UnsharedAt(p, job, t) && Attempted(p, job, t)
    ensures var p' := PutOne(p, job, t, a, pick);
            PutResult(p, p', job, t) && Reconciling(p', job.cfg, job.app, gone + Strands(p, job, t, a))
  {
    hide WantHash;
    hide CreateInto;
    hide UpdateGateway;
    hide Placed;
    hide Reconciling;
    hide Addr;
    hide Good;
    hide Describes;
    hide MarkedFor;
    hide AddrOf;
    var addr := Addr(t);
    PutByUpdate(p, job, t, a.update, gone);
    OnlyAt(p, job.cfg, job.app, gone, addr);
    var ref := p.tracked[addr];
    var (w', r) := UpdateGateway(p.w, job, t, ref, a.update);
    if r.Updated? {
      assert p.tracked[addr := r.ref] - {addr} == p.tracked - {addr};
      assert gone + {} == gone;
    } else {
      var p1 := Pass(w', p.tracked - {addr}, r.Vanished? && p.ok);
      forall b | b in p1.tracked && Runs(p.w.services, job.app, p.tracked[b].serviceId)
        ensures AddrOf(p.w.services, p.tracked[b].serviceId) != addr {}
      if r.UpdateFailed? {
        forall s | Runs(p.w.services, job.app, s) && AddrOf(p.w.services, s) == addr
          ensures addr in gone + Strands(p, job, t, a) {}
        SameReconciling(p, p1, job.cfg, job.app, gone, gone + Strands(p, job, t, a), addr);
      } else {
        SameReconciling(p, p1, job.cfg, job.app, gone, gone, addr);
        PutByCreate(p1, job, t, a.create, pick, gone);
        assert gone + {} == gone;
      }
    }
  }
}
