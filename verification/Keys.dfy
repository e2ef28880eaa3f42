/** Accounting for preauth keys: where every minted key is, after any pass, under every
    combination of failures. */
module Keys {
  import opened Text
  import opened Targets
  import opened World
  import opened Egress

  /** Minted keys neither held nor passed to ExpireKey. */
  function Unaccounted(w: World, held: set<string>): set<string> { w.minted - held - w.expired }

  /** From `w` holding `h` to `w'` holding `h'`: nothing held is expired, only keys held
      before or minted meanwhile are touched, and exactly the keys in `lost` drop out of
      sight. */
  ghost predicate Settles(w: World, h: set<string>, w': World, h': set<string>, lost: set<string>) {
    var newly := w'.minted - w.minted;
    && w.minted <= w'.minted && w.expired <= w'.expired
    && h' <= h + newly && lost <= h + newly
    && w'.expired <= w.expired + h + newly
    && h' !! w'.expired
    && Unaccounted(w', h') == Unaccounted(w, h) + lost
  }

  ghost predicate Books(w: World, h: set<string>) { h <= w.minted && h !! w.expired }

  lemma SettlesBooks(w: World, h: set<string>, w': World, h': set<string>, lost: set<string>)
    requires Books(w, h) && Settles(w, h, w', h', lost)
    ensures Books(w', h')
  {
  }

  lemma SettlesTwice(w: World, h: set<string>, w1: World, h1: set<string>, w2: World, h2: set<string>, l1: set<string>, l2: set<string>)
    requires Settles(w, h, w1, h1, l1) && Settles(w1, h1, w2, h2, l2)
    ensures Settles(w, h, w2, h2, l1 + l2)
  {
  }

  lemma SettlesIdle(w: World, w': World, h: set<string>)
    requires Books(w, h) && w'.minted == w.minted && w'.expired == w.expired
    ensures Settles(w, h, w', h, {})
  {
  }

  /** Keys held elsewhere are none of the step's business. */
  lemma SettlesFrame(w: World, h: set<string>, w': World, h': set<string>, lost: set<string>, other: set<string>)
    requires Settles(w, h, w', h', lost) && Books(w, other) && other !! h
    ensures Settles(w, h + other, w', h' + other, lost) && other !! h'
  {
  }

  // ---------- the keys of a working map ----------

  function KeyOf(ref: GatewayRef): set<string> { if ref.keyId == "" then {} else {ref.keyId} }

  function HeldBy(m: map<string, GatewayRef>): set<string> { set a | a in m && m[a].keyId != "" :: m[a].keyId }

  ghost predicate Once(m: map<string, GatewayRef>) {
    forall a, b :: a in m && b in m && a != b && m[a].keyId != "" ==> m[a].keyId != m[b].keyId
  }

  lemma HeldWithout(m: map<string, GatewayRef>, a: string)
    requires Once(m) && a in m
    ensures HeldBy(m) == HeldBy(m - {a}) + KeyOf(m[a]) && HeldBy(m - {a}) !! KeyOf(m[a])
    ensures Once(m - {a})
  {
    forall b | b in m - {a} ensures b in m && b != a && (m - {a})[b] == m[b] {}
    forall k | k in HeldBy(m) ensures k in HeldBy(m - {a}) + KeyOf(m[a]) {
      var b :| b in m && m[b].keyId == k;
      if b != a {
        assert b in m - {a};
      }
    }
  }

  lemma HeldWith(m: map<string, GatewayRef>, a: string, ref: GatewayRef)
    requires Once(m) && a !in m && KeyOf(ref) !! HeldBy(m)
    ensures HeldBy(m[a := ref]) == HeldBy(m) + KeyOf(ref)
    ensures Once(m[a := ref])
  {
    var m' := m[a := ref];
    forall b | b in m ensures b in m' && m'[b] == m[b] {}
    forall k | k in HeldBy(m) ensures k in HeldBy(m') {
      var b :| b in m && m[b].keyId == k;
      assert b in m' && m'[b].keyId == k;
    }
    if ref.keyId != "" {
      assert a in m' && m'[a].keyId == ref.keyId;
    }
    assert forall b :: b in m && m[b].keyId != "" ==> m[b].keyId in HeldBy(m);
  }

  // ---------- single calls ----------

  lemma RemoveGatewaySettles(w: World, ref: GatewayRef, a: RemoveAnswers)
    requires Books(w, KeyOf(ref))
    ensures var (w', ok) := RemoveGateway(w, ref, a);
            Settles(w, KeyOf(ref), w', if ok then {} else KeyOf(ref), {})
  {
  }

  lemma AdoptSettles(w: World, job: Job, t: EgressTarget, key: Key, a: CreateAnswers, pick: Picker)
    requires key.id != "" && Books(w, {key.id})
    ensures var (w', r) := AdoptExisting(w, job, t, key, a, pick);
            && w'.minted == w.minted
            && (r.Some? ==> w'.expired == w.expired && r.value.keyId == key.id)
            && (r.None? ==> w'.expired == w.expired + {key.id})
  {
    hide WantSpec;
    hide WantHash;
    hide Addr;
    hide Named;
  }

  /** A key is minted and then either handed on in `r` or expired again, or none is. */
  ghost predicate MintedFor(w: World, w': World, key: Option<string>, r: Option<GatewayRef>) {
    match key
    case None => r.None? && w'.minted == w.minted && w'.expired == w.expired
    case Some(k) =>
      && k != "" && k !in w.minted && w'.minted == w.minted + {k}
      && (if r.Some? then r.value.keyId == k && w'.expired == w.expired else w'.expired == w.expired + {k})
  }

  lemma CreateMints(w: World, job: Job, t: EgressTarget, a: CreateAnswers, pick: Picker)
    requires w.expired <= w.minted
    ensures var (w', r) := CreateGateway(w, job, t, a, pick);
            MintedFor(w, w', if a.wait && Mint(w, a.key).1.Some? then Some(a.key.value.id) else None, r)
  {
    hide WantSpec;
    hide WantHash;
    hide Addr;
    hide Named;
    hide AdoptExisting;
    if a.wait {
      var (w1, key) := Mint(w, a.key);
      if key.Some? {
        var (w2, created) := CreateService(w1, WantSpec(job, t, key.value.secret), a.id);
        if created.Exists? {
          AdoptSettles(w2, job, t, key.value, a, pick);
        }
      }
    }
  }

  lemma CreateSettles(w: World, job: Job, t: EgressTarget, a: CreateAnswers, pick: Picker)
    requires w.expired <= w.minted
    ensures var (w', r) := CreateGateway(w, job, t, a, pick);
            && Settles(w, {}, w', if r.Some? then KeyOf(r.value) else {}, {})
            && (r.Some? ==> r.value.keyId != "" && r.value.keyId !in w.minted)
            && w'.expired <= w'.minted
  {
    hide CreateGateway;
    CreateMints(w, job, t, a, pick);
  }

  lemma UpdateSettles(w: World, job: Job, t: EgressTarget, ref: GatewayRef, a: UpdateAnswers)
    requires Books(w, KeyOf(ref)) && w.expired <= w.minted
    ensures var (w', r) := UpdateGateway(w, job, t, ref, a);
            && Settles(w, KeyOf(ref), w', if r.Updated? then KeyOf(r.ref) else {}, if r.Updated? then {} else KeyOf(ref))
            && (r.Updated? ==> r.ref.keyId != "" && r.ref.keyId !in w.minted)
            && w'.expired <= w'.minted
  {
    hide WantSpec;
    hide WantHash;
    hide Addr;
    hide Named;
  }

  // ---------- the loops ----------

  ghost predicate Keyed(m: map<string, GatewayRef>) { forall a :: a in m ==> m[a].target == a }

  ghost predicate PassBooks(p: Pass) { Keyed(p.tracked) && Once(p.tracked) && Books(p.w, HeldBy(p.tracked)) && p.w.expired <= p.w.minted }

  lemma RemoveOneSettles(p: Pass, addr: string, a: RemoveAnswers)
    requires PassBooks(p) && addr in p.tracked
    ensures var p' := RemoveOne(p, addr, a);
            PassBooks(p') && Settles(p.w, HeldBy(p.tracked), p'.w, HeldBy(p'.tracked), {})
  {
    hide Once;
    hide RemoveGateway;
    hide HeldBy;
    HeldWithout(p.tracked, addr);
    RemoveGatewaySettles(p.w, p.tracked[addr], a);
    var (w', ok) := RemoveGateway(p.w, p.tracked[addr], a);
    SettlesFrame(p.w, KeyOf(p.tracked[addr]), w', if ok then {} else KeyOf(p.tracked[addr]), {}, HeldBy(p.tracked - {addr}));
    assert {} + HeldBy(p.tracked - {addr}) == HeldBy(p.tracked - {addr});
    assert KeyOf(p.tracked[addr]) + HeldBy(p.tracked - {addr}) == HeldBy(p.tracked);
  }

  lemma {:induction false} RemoveLoopSettles(p: Pass, keep: set<string>, todo: set<string>, ans: Answers)
    requires PassBooks(p) && todo <= p.tracked.Keys
    ensures var p' := RemoveLoop(p, keep, todo, ans);
            PassBooks(p') && Settles(p.w, HeldBy(p.tracked), p'.w, HeldBy(p'.tracked), {})
    decreases todo
  {
    hide Once;
    hide RemoveOne;
    hide HeldBy;
    hide Settles;
    if todo == {} {
      SettlesIdle(p.w, p.w, HeldBy(p.tracked));
    } else {
      var addr := ans.pick(todo);
      if addr in keep {
        RemoveLoopSettles(p, keep, todo - {addr}, ans);
      } else {
        var p1 := RemoveOne(p, addr, ans.remove(addr));
        RemoveOneSettles(p, addr, ans.remove(addr));
        RemoveOneTracked(p, addr, ans.remove(addr));
        RemoveLoopSettles(p1, keep, todo - {addr}, ans);
        var p' := RemoveLoop(p1, keep, todo - {addr}, ans);
        SettlesTwice(p.w, HeldBy(p.tracked), p1.w, HeldBy(p1.tracked), p'.w, HeldBy(p'.tracked), {}, {});
        var none: set<string> := {};
        assert none + none == none;
      }
    }
  }

  lemma RemoveOneTracked(p: Pass, addr: string, a: RemoveAnswers)
    requires addr in p.tracked
    ensures var p' := RemoveOne(p, addr, a);
            p'.tracked == p.tracked || p'.tracked == p.tracked - {addr}
  {
  }

  /** The key a target's step drops: its old one, when the in-place update failed or the
      gateway had vanished. */
  function PutLoss(p: Pass, job: Job, t: EgressTarget, a: PutAnswers): set<string> {
    if Addr(t) in p.tracked && p.tracked[Addr(t)].hash != WantHash(job, t)
       && !UpdateGateway(p.w, job, t, p.tracked[Addr(t)], a.update).1.Updated?
    then KeyOf(p.tracked[Addr(t)])
    else {}
  }

  lemma CreateIntoSettles(p: Pass, job: Job, t: EgressTarget, a: CreateAnswers, pick: Picker)
    requires PassBooks(p) && Addr(t) !in p.tracked
    ensures var p' := CreateInto(p, job, t, a, pick);
            PassBooks(p') && Settles(p.w, HeldBy(p.tracked), p'.w, HeldBy(p'.tracked), {})
  {
    hide Once;
    hide CreateGateway;
    hide HeldBy;
    hide Addr;
    CreateSettles(p.w, job, t, a, pick);
    var (w', r) := CreateGateway(p.w, job, t, a, pick);
    var h := HeldBy(p.tracked);
    SettlesFrame(p.w, {}, w', if r.Some? then KeyOf(r.value) else {}, {}, h);
    assert {} + h == h;
    if r.Some? {
      HeldWith(p.tracked, Addr(t), r.value);
      assert KeyOf(r.value) + h == HeldBy(p.tracked[Addr(t) := r.value]);
    }
  }

  lemma PutOneSettles(p: Pass, job: Job, t: EgressTarget, a: PutAnswers, pick: Picker)
    requires PassBooks(p)
    ensures var p' := PutOne(p, job, t, a, pick);
            PassBooks(p') && Settles(p.w, HeldBy(p.tracked), p'.w, HeldBy(p'.tracked), PutLoss(p, job, t, a))
  {
    hide Once;
    hide CreateInto;
    hide UpdateGateway;
    hide HeldBy;
    hide Addr;
    hide WantHash;
    hide Settles;
    var addr := Addr(t);
    var h := HeldBy(p.tracked);
    if addr !in p.tracked {
      CreateIntoSettles(p, job, t, a.create, pick);
    } else if p.tracked[addr].hash == WantHash(job, t) {
      SettlesIdle(p.w, p.w, h);
    } else {
      UpdateIntoSettles(p, job, t, a.update);
      var (w1, r) := UpdateGateway(p.w, job, t, p.tracked[addr], a.update);
      if r.Vanished? {
        var p1 := Pass(w1, p.tracked - {addr}, p.ok);
        CreateIntoSettles(p1, job, t, a.create, pick);
        var p' := CreateInto(p1, job, t, a.create, pick);
        SettlesTwice(p.w, h, p1.w, HeldBy(p1.tracked), p'.w, HeldBy(p'.tracked), KeyOf(p.tracked[addr]), {});
        assert KeyOf(p.tracked[addr]) + {} == KeyOf(p.tracked[addr]);
      }
    }
  }

  lemma UpdateIntoSettles(p: Pass, job: Job, t: EgressTarget, a: UpdateAnswers)
    requires PassBooks(p) && Addr(t) in p.tracked
    ensures var ref := p.tracked[Addr(t)];
            var (w', r) := UpdateGateway(p.w, job, t, ref, a);
            var tracked' := if r.Updated? then p.tracked[Addr(t) := r.ref] else p.tracked - {Addr(t)};
            && Keyed(tracked') && Once(tracked') && Books(w', HeldBy(tracked')) && w'.expired <= w'.minted
            && Settles(p.w, HeldBy(p.tracked), w', HeldBy(tracked'), if r.Updated? then {} else KeyOf(ref))
  {
    hide Once;
    hide UpdateGateway;
    hide HeldBy;
    hide Addr;
    var addr := Addr(t);
    var ref := p.tracked[addr];
    HeldWithout(p.tracked, addr);
    UpdateSettles(p.w, job, t, ref, a);
    var (w', r) := UpdateGateway(p.w, job, t, ref, a);
    var others := HeldBy(p.tracked - {addr});
    SettlesFrame(p.w, KeyOf(ref), w', if r.Updated? then KeyOf(r.ref) else {}, if r.Updated? then {} else KeyOf(ref), others);
    assert KeyOf(ref) + others == HeldBy(p.tracked) && {} + others == others;
    if r.Updated? {
      HeldWith(p.tracked - {addr}, addr, r.ref);
      assert (p.tracked - {addr})[addr := r.ref] == p.tracked[addr := r.ref];
      assert KeyOf(r.ref) + others == HeldBy(p.tracked[addr := r.ref]);
    }
  }

  function PutLosses(p: Pass, job: Job, desired: map<string, EgressTarget>, todo: set<string>, ans: Answers): set<string>
    requires todo <= desired.Keys
    decreases todo
  {
    if todo == {} then {}
    else
      var addr := ans.pick(todo);
      PutLoss(p, job, desired[addr], ans.put(addr)) +
      PutLosses(PutOne(p, job, desired[addr], ans.put(addr), ans.pick), job, desired, todo - {addr}, ans)
  }

  lemma {:induction false} PutLoopSettles(p: Pass, job: Job, desired: map<string, EgressTarget>, todo: set<string>, ans: Answers)
    requires PassBooks(p) && todo <= desired.Keys
    ensures var p' := PutLoop(p, job, desired, todo, ans);
            PassBooks(p') && Settles(p.w, HeldBy(p.tracked), p'.w, HeldBy(p'.tracked), PutLosses(p, job, desired, todo, ans))
    decreases todo
  {
    hide Once;
    hide PutOne;
    hide HeldBy;
    hide Settles;
    hide PutLoss;
    if todo == {} {
      SettlesIdle(p.w, p.w, HeldBy(p.tracked));
    } else {
      var addr := ans.pick(todo);
      var p1 := PutOne(p, job, desired[addr], ans.put(addr), ans.pick);
      PutOneSettles(p, job, desired[addr], ans.put(addr), ans.pick);
      PutLoopSettles(p1, job, desired, todo - {addr}, ans);
      var p' := PutLoop(p1, job, desired, todo - {addr}, ans);
      SettlesTwice(p.w, HeldBy(p.tracked), p1.w, HeldBy(p1.tracked), p'.w, HeldBy(p'.tracked),
                   PutLoss(p, job, desired[addr], ans.put(addr)), PutLosses(p1, job, desired, todo - {addr}, ans));
    }
  }

  /** Only keys the pass started with can be dropped, never one it minted. */
  lemma {:induction false} PutLossesOld(p: Pass, job: Job, desired: map<string, EgressTarget>, todo: set<string>, ans: Answers)
    requires todo <= desired.Keys && forall a :: a in desired ==> Addr(desired[a]) == a
    ensures PutLosses(p, job, desired, todo, ans) <= (set a | a in todo && a in p.tracked && p.tracked[a].keyId != "" :: p.tracked[a].keyId)
    decreases todo
  {
    hide PutOne;
    hide WantHash;
    hide UpdateGateway;
    hide Addr;
    if todo != {} {
      var addr := ans.pick(todo);
      var p1 := PutOne(p, job, desired[addr], ans.put(addr), ans.pick);
      PutLossesOld(p1, job, desired, todo - {addr}, ans);
      PutOneOthers(p, job, desired[addr], ans.put(addr), ans.pick);
    }
  }

  lemma PutOneOthers(p: Pass, job: Job, t: EgressTarget, a: PutAnswers, pick: Picker)
    ensures var p' := PutOne(p, job, t, a, pick);
            forall b :: b != Addr(t) ==> (b in p'.tracked <==> b in p.tracked) && (b in p.tracked ==> p'.tracked[b] == p.tracked[b])
  {
    hide CreateGateway;
    hide UpdateGateway;
    hide WantHash;
    hide Addr;
  }
}
