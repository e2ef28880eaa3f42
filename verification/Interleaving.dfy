/** Passes of different shards interleave call by call. As long as gateway names are
    separated between apps, every interleaving of passes for distinct services ends in the
    world, and each pass with the result, of running them one after the other, in any order. */
module Interleaving {
  import opened Text
  import opened Gateway
  import opened Labels
  import opened World
  import opened Reconcile
  import opened Independence
  import opened Ownership
  import opened Calls
  import opened Uninterrupted
  import opened Effects
  import opened OwnCalls

  // ---------- configurations ----------

  /** The world and what is left of each running pass. */
  datatype Conf = Conf(w: World, progs: map<string, Prog>)

  /** One call of the pass for `id`, if it has one left. */
  function StepOf(c: Conf, id: string): Conf {
    if id !in c.progs || c.progs[id].Done? then c
    else var (w, r) := Perform(c.w, c.progs[id].call); Conf(w, c.progs[id := c.progs[id].next(r)])
  }

  function RunAll(c: Conf, schedule: seq<string>): Conf
    decreases schedule
  {
    if schedule == [] then c else RunAll(StepOf(c, schedule[0]), schedule[1..])
  }

  type Lanes = map<string, Lane>
  type Footing = map<string, set<string>>

  /** Every pass has its footing, and its next `n` calls are its own. */
  ghost predicate Fine(c: Conf, lanes: Lanes, refs: Footing, owner: Owner, n: nat) {
    && lanes.Keys == c.progs.Keys && refs.Keys == c.progs.Keys
    && (forall id :: id in lanes ==> lanes[id].app == id && Holds(c.w, lanes[id], owner, refs[id]))
    && (forall id :: id in lanes ==> Own(n, c.progs[id], lanes[id], owner, refs[id]))
    && (forall id, id' :: id in lanes && id' in lanes && id != id' ==> DrawApart(lanes[id].script, lanes[id'].script))
  }

  lemma FineLess(c: Conf, lanes: Lanes, refs: Footing, owner: Owner, n: nat, m: nat)
    requires Fine(c, lanes, refs, owner, n) && m <= n
    ensures Fine(c, lanes, refs, owner, m)
  {
    hide Own;
    hide Holds;
    hide DrawApart;
    forall id | id in lanes ensures Own(m, c.progs[id], lanes[id], owner, refs[id]) {
      OwnMore(n, m, c.progs[id], lanes[id], owner, refs[id], refs[id]);
    }
  }

  lemma OwnNext(n: nat, p: Prog, l: Lane, owner: Owner, refs: set<string>, r: Reply)
    requires n > 0 && p.Do? && Own(n, p, l, owner, refs) && Legal(p.call, r, l)
    ensures OwnCall(p.call, l, owner, refs) && Own(n - 1, p.next(r), l, owner, refs + Gains(p.call, r))
  {
    hide OwnCall;
    hide Legal;
    hide Gains;
  }

  /** A step keeps everything fine. */
  lemma StepFine(c: Conf, lanes: Lanes, refs: Footing, owner: Owner, n: nat, id: string) returns (refs': Footing)
    requires Fine(c, lanes, refs, owner, n) && n > 0
    ensures Fine(StepOf(c, id), lanes, refs', owner, n - 1)
  {
    hide Own;
    hide OwnCall;
    hide Legal;
    hide Gains;
    hide Holds;
    hide DrawApart;
    hide Within;
    hide Perform;
    hide EffectOf;
    hide Change;
    FineLess(c, lanes, refs, owner, n, n - 1);
    refs' := refs;
    if id in c.progs && c.progs[id].Do? {
      var p, l := c.progs[id], lanes[id];
      var (w', r) := Perform(c.w, p.call);
      RepliesLegal(c.w, p.call, l, owner, refs[id]);
      OwnNext(n, p, l, owner, refs[id], r);
      OwnKeeps(c.w, p.call, l, owner, refs[id]);
      refs' := refs[id := refs[id] + Gains(p.call, r)];
      PerformIs(c.w, p.call);
      OwnEffect(c.w, p.call, l, owner, refs[id]);
      forall i | i in lanes && i != id ensures Holds(w', lanes[i], owner, refs[i]) {
        OthersKeep(c.w, EffectOf(c.w, p.call), lanes[i], l, owner, refs[i]);
      }
    }
  }

  /** Steps of different passes commute. */
  lemma Diamond(c: Conf, lanes: Lanes, refs: Footing, owner: Owner, n: nat, a: string, b: string)
    requires Fine(c, lanes, refs, owner, n) && n > 0 && a != b
    ensures StepOf(StepOf(c, a), b) == StepOf(StepOf(c, b), a)
  {
    hide Legal;
    hide Gains;
    hide OwnCall;
    hide Holds;
    hide DrawApart;
    hide Perform;
    if a in c.progs && c.progs[a].Do? && b in c.progs && c.progs[b].Do? {
      assert Own(n, c.progs[a], lanes[a], owner, refs[a]) && Own(n, c.progs[b], lanes[b], owner, refs[b]);
      CallsCommute(c.w, c.progs[a].call, c.progs[b].call, lanes[a], lanes[b], owner, refs[a], refs[b]);
      var (_, ra) := Perform(c.w, c.progs[a].call);
      var (_, rb) := Perform(c.w, c.progs[b].call);
      var pa, pb := c.progs[a].next(ra), c.progs[b].next(rb);
      assert c.progs[a := pa][b := pb] == c.progs[b := pb][a := pa];
    }
  }

  // ---------- from any schedule to a sequence of passes ----------

  function StepsOf(c: Conf, id: string, k: nat): Conf
    decreases k
  {
    if k == 0 then c else StepsOf(StepOf(c, id), id, k - 1)
  }

  function Count(schedule: seq<string>, id: string): nat {
    if schedule == [] then 0 else (if schedule[0] == id then 1 else 0) + Count(schedule[1..], id)
  }

  function Without(schedule: seq<string>, id: string): seq<string> {
    if schedule == [] then [] else (if schedule[0] == id then [] else [schedule[0]]) + Without(schedule[1..], id)
  }

  lemma {:induction false} WithoutIs(schedule: seq<string>, id: string)
    ensures |Without(schedule, id)| + Count(schedule, id) == |schedule|
    ensures forall x :: x in Without(schedule, id) <==> x in schedule && x != id
  {
    if schedule != [] {
      WithoutIs(schedule[1..], id);
      assert forall x :: x in schedule <==> x == schedule[0] || x in schedule[1..];
    }
  }

  /** A step of another pass may wait until this one has made all its calls. */
  lemma {:induction false} StepWaits(c: Conf, lanes: Lanes, refs: Footing, owner: Owner, n: nat, a: string, k: nat, x: string)
    requires Fine(c, lanes, refs, owner, n) && n > k && a != x
    ensures StepsOf(StepOf(c, x), a, k) == StepOf(StepsOf(c, a, k), x)
    decreases k
  {
    hide StepOf;
    hide Fine;
    if k > 0 {
      Diamond(c, lanes, refs, owner, n, a, x);
      var refs' := StepFine(c, lanes, refs, owner, n, a);
      StepWaits(StepOf(c, a), lanes, refs', owner, n - 1, a, k - 1, x);
    }
  }

  lemma {:induction false} StepsFine(c: Conf, lanes: Lanes, refs: Footing, owner: Owner, n: nat, id: string, k: nat) returns (refs': Footing)
    requires Fine(c, lanes, refs, owner, n) && k <= n
    ensures Fine(StepsOf(c, id, k), lanes, refs', owner, n - k)
    decreases k
  {
    hide Fine;
    hide StepOf;
    refs' := refs;
    if k > 0 {
      refs' := StepFine(c, lanes, refs, owner, n, id);
      refs' := StepsFine(StepOf(c, id), lanes, refs', owner, n - 1, id, k - 1);
    }
  }

  /** All calls of one pass may come first. */
  lemma {:induction false} Gather(c: Conf, lanes: Lanes, refs: Footing, owner: Owner, schedule: seq<string>, a: string)
    requires Fine(c, lanes, refs, owner, |schedule|)
    ensures RunAll(c, schedule) == RunAll(StepsOf(c, a, Count(schedule, a)), Without(schedule, a))
    decreases schedule
  {
    hide Fine;
    hide StepOf;
    if schedule != [] {
      var x, rest := schedule[0], schedule[1..];
      var k := Count(rest, a);
      var refs' := StepFine(c, lanes, refs, owner, |schedule|, x);
      Gather(StepOf(c, x), lanes, refs', owner, rest, a);
      WithoutIs(rest, a);
      if x != a {
        StepWaits(c, lanes, refs, owner, |schedule|, a, k, x);
        assert ([x] + Without(rest, a))[1..] == Without(rest, a);
      } else {
        assert [] + Without(rest, a) == Without(rest, a);
      }
    }
  }

  lemma {:induction false} StepsAre(c: Conf, id: string, k: nat)
    requires id in c.progs
    ensures var (w, p) := Steps(c.w, c.progs[id], k); StepsOf(c, id, k) == Conf(w, c.progs[id := p])
    decreases k
  {
    hide Perform;
    if k == 0 || c.progs[id].Done? {
      assert c.progs[id := c.progs[id]] == c.progs;
      StepsStop(c, id, k);
    } else {
      StepsAre(StepOf(c, id), id, k - 1);
    }
  }

  lemma {:induction false} StepsStop(c: Conf, id: string, k: nat)
    ensures id in c.progs && (k == 0 || c.progs[id].Done?) ==> StepsOf(c, id, k) == c
    decreases k
  {
    if k > 0 {
      StepsStop(c, id, k - 1);
    }
  }

  /** A schedule leaves the passes it does not mention alone. */
  lemma {:induction false} RunLeaves(c: Conf, schedule: seq<string>, id: string)
    requires id !in schedule && id in c.progs
    ensures id in RunAll(c, schedule).progs && RunAll(c, schedule).progs[id] == c.progs[id]
    decreases schedule
  {
    hide Perform;
    if schedule != [] {
      RunLeaves(StepOf(c, schedule[0]), schedule[1..], id);
    }
  }

  /** A program that ends, ends in one way. */
  lemma EndsOnce(w: World, p: Prog, k: nat, w': World, ok: bool)
    requires Leads(w, p, w', Done(ok)) && Steps(w, p, k).1.Done?
    ensures Steps(w, p, k) == (w', Done(ok))
  {
    var n: nat :| Steps(w, p, n) == (w', Done(ok));
    if n <= k {
      StepsMore(w, p, n, k - n);
    } else {
      StepsMore(w, p, k, n - k);
    }
  }

  /** The passes one after the other. */
  function InTurn(w: World, d: Daemon, scripts: map<string, Script>, order: seq<string>): World
    requires forall id :: id in order ==> id in scripts
    decreases order
  {
    if order == [] then w
    else InTurn(ReconcileService(w, d, order[0], scripts[order[0]]).w, d, scripts, order[1..])
  }

  ghost predicate Distinct(order: seq<string>) { forall i, j :: 0 <= i < j < |order| ==> order[i] != order[j] }

  lemma {:induction false} Serialize(c: Conf, lanes: Lanes, refs: Footing, owner: Owner, d: Daemon,
                                     scripts: map<string, Script>, schedule: seq<string>, order: seq<string>)
    requires Fine(c, lanes, refs, owner, |schedule|) && Distinct(order) && (forall id :: id in schedule ==> id in order)
    requires forall id :: id in order ==> id in scripts && id in c.progs && c.progs[id] == ReconcileProg(d, id, scripts[id])
    requires forall id :: id in order && id in RunAll(c, schedule).progs ==> RunAll(c, schedule).progs[id].Done?
    ensures RunAll(c, schedule).w == InTurn(c.w, d, scripts, order)
    decreases order
  {
    hide Fine;
    hide StepOf;
    hide ReconcileProg;
    hide ReconcileService;
    hide Leads;
    hide Steps;
    assert forall i :: 0 <= i < |schedule| ==> schedule[i] in order;
    if order != [] {
      var a, rest := order[0], order[1..];
      assert a in order && forall id :: id in order <==> id == a || id in rest;
      var k := Count(schedule, a);
      var c1 := StepsOf(c, a, k);
      var later := Without(schedule, a);
      Gather(c, lanes, refs, owner, schedule, a);
      WithoutIs(schedule, a);
      StepsAre(c, a, k);
      RunLeaves(c1, later, a);
      var r := ReconcileService(c.w, d, a, scripts[a]);
      ReconcileRuns(c.w, d, a, scripts[a]);
      EndsOnce(c.w, c.progs[a], k, r.w, r.ok);
      var refs' := StepsFine(c, lanes, refs, owner, |schedule|, a, k);
      Serialize(c1, lanes, refs', owner, d, scripts, later, rest);
    }
  }

  /** Each pass ends with the result it would have had alone. */
  lemma SameResult(c: Conf, lanes: Lanes, refs: Footing, owner: Owner, d: Daemon, s: Script, schedule: seq<string>, id: string)
    requires Fine(c, lanes, refs, owner, |schedule|) && id in c.progs && c.progs[id] == ReconcileProg(d, id, s)
    requires id in RunAll(c, schedule).progs ==> RunAll(c, schedule).progs[id].Done?
    ensures id in RunAll(c, schedule).progs && RunAll(c, schedule).progs[id] == Done(ReconcileService(c.w, d, id, s).ok)
  {
    hide Fine;
    hide StepOf;
    hide ReconcileProg;
    hide ReconcileService;
    hide Leads;
    hide Steps;
    hide RunAll;
    var k := Count(schedule, id);
    Gather(c, lanes, refs, owner, schedule, id);
    WithoutIs(schedule, id);
    StepsAre(c, id, k);
    RunLeaves(StepsOf(c, id, k), Without(schedule, id), id);
    var r := ReconcileService(c.w, d, id, s);
    ReconcileRuns(c.w, d, id, s);
    EndsOnce(c.w, c.progs[id], k, r.w, r.ok);
  }

  // ---------- serializability ----------

  function LaneOf(w: World, id: string, s: Script): Lane {
    Lane(id, if id in w.services then Some(w.services[id]) else None, s)
  }

  /** Passes for distinct services, none a gateway, that ask for names of their own and are
      handed distinct IDs. */
  ghost predicate Concurrent(w: World, d: Daemon, scripts: map<string, Script>, owner: Owner) {
    && Owned(w, owner)
    && (forall id :: id in scripts ==> id in w.ids && (id in w.services ==> Mark(w.services[id].spec).None?))
    && (forall id :: id in scripts ==> AsksForOwn(w, d, id, scripts[id], owner))
    && (forall id, id' :: id in scripts && id' in scripts && id != id' ==> DrawApart(scripts[id], scripts[id']))
  }

  /** All passes at their first call. */
  function Begin(w: World, d: Daemon, scripts: map<string, Script>): Conf {
    Conf(w, map id | id in scripts :: ReconcileProg(d, id, scripts[id]))
  }

  lemma HoldsAtFirst(w: World, id: string, s: Script, owner: Owner)
    requires Owned(w, owner) && id in w.ids && (id in w.services ==> Mark(w.services[id].spec).None?)
    ensures Holds(w, LaneOf(w, id, s), owner, {})
  {
    hide Mark;
    assert RefIds(ZERO_ENTRY) == {};
  }

  lemma AsksAtFirst(w: World, d: Daemon, id: string, s: Script, owner: Owner)
    requires AsksForOwn(w, d, id, s, owner)
    ensures AsksOwn(d, LaneOf(w, id, s), owner)
  {
    hide ParseLabels;
    hide IsGateway;
    hide JobOwns;
    assert Decide(Shown(LaneOf(w, id, s)), d, id, s) == Decide(w.services, d, id, s);
  }

  lemma FineAtFirst(w: World, d: Daemon, scripts: map<string, Script>, owner: Owner, n: nat) returns (lanes: Lanes, refs: Footing)
    requires Concurrent(w, d, scripts, owner)
    ensures Fine(Begin(w, d, scripts), lanes, refs, owner, n)
  {
    hide Own;
    hide Holds;
    hide DrawApart;
    hide ReconcileProg;
    hide Owned;
    hide AsksForOwn;
    hide AsksOwn;
    hide Mark;
    lanes := map id | id in scripts :: LaneOf(w, id, scripts[id]);
    refs := map id | id in scripts :: {};
    forall id | id in scripts
      ensures Holds(w, lanes[id], owner, refs[id]) && Own(n, ReconcileProg(d, id, scripts[id]), lanes[id], owner, refs[id]) {
      HoldsAtFirst(w, id, scripts[id], owner);
      AsksAtFirst(w, d, id, scripts[id], owner);
      OwnReconcile(n, d, lanes[id], owner);
    }
  }

  /** Serializability: however the calls of passes for distinct services interleave, once all
      have ended the world is the one the passes leave one after the other, in every order. */
  lemma Serializable(w: World, d: Daemon, scripts: map<string, Script>, owner: Owner, schedule: seq<string>, order: seq<string>)
    requires Concurrent(w, d, scripts, owner) && Distinct(order) && (forall id :: id in order <==> id in scripts)
    requires forall id :: id in schedule ==> id in scripts
    requires forall id :: id in RunAll(Begin(w, d, scripts), schedule).progs ==> RunAll(Begin(w, d, scripts), schedule).progs[id].Done?
    ensures RunAll(Begin(w, d, scripts), schedule).w == InTurn(w, d, scripts, order)
  {
    hide Fine;
    hide Concurrent;
    hide ReconcileProg;
    hide RunAll;
    hide InTurn;
    hide Distinct;
    var lanes, refs := FineAtFirst(w, d, scripts, owner, |schedule|);
    Serialize(Begin(w, d, scripts), lanes, refs, owner, d, scripts, schedule, order);
  }

  /** And each pass reports what it would have reported alone. */
  lemma ResultsAreTheirOwn(w: World, d: Daemon, scripts: map<string, Script>, owner: Owner, schedule: seq<string>, id: string)
    requires Concurrent(w, d, scripts, owner) && id in scripts
    requires forall i :: i in RunAll(Begin(w, d, scripts), schedule).progs ==> RunAll(Begin(w, d, scripts), schedule).progs[i].Done?
    ensures var c := RunAll(Begin(w, d, scripts), schedule);
            id in c.progs && c.progs[id] == Done(ReconcileService(w, d, id, scripts[id]).ok)
  {
    hide Fine;
    hide Concurrent;
    hide ReconcileProg;
    hide ReconcileService;
    hide RunAll;
    var lanes, refs := FineAtFirst(w, d, scripts, owner, |schedule|);
    SameResult(Begin(w, d, scripts), lanes, refs, owner, d, scripts[id], schedule, id);
  }

  // ---------- every order ----------

  function Times(id: string, n: nat): (r: seq<string>)
    ensures forall x :: x in r ==> x == id
  {
    if n == 0 then [] else [id] + Times(id, n - 1)
  }

  lemma {:induction false} RunTimes(c: Conf, id: string, n: nat, rest: seq<string>)
    ensures RunAll(c, Times(id, n) + rest) == RunAll(StepsOf(c, id, n), rest)
    decreases n
  {
    hide StepOf;
    if n == 0 {
      assert Times(id, n) + rest == rest;
    } else {
      assert Times(id, n) + rest == [id] + (Times(id, n - 1) + rest);
      RunTimes(StepOf(c, id), id, n - 1, rest);
    }
  }

  /** Run one after the other, the programs end. */
  lemma {:induction false} SomeSchedule(c: Conf, d: Daemon, scripts: map<string, Script>, order: seq<string>) returns (schedule: seq<string>)
    requires Distinct(order)
    requires forall id :: id in order ==> id in scripts && id in c.progs && c.progs[id] == ReconcileProg(d, id, scripts[id])
    ensures forall id :: id in schedule ==> id in order
    ensures forall id :: id in order ==> id in RunAll(c, schedule).progs && RunAll(c, schedule).progs[id].Done?
    decreases order
  {
    hide StepOf;
    hide ReconcileProg;
    hide ReconcileService;
    hide Steps;
    schedule := [];
    if order != [] {
      var a, rest := order[0], order[1..];
      assert a in order && forall id :: id in order <==> id == a || id in rest;
      ReconcileRuns(c.w, d, a, scripts[a]);
      var r := ReconcileService(c.w, d, a, scripts[a]);
      var n: nat :| Steps(c.w, c.progs[a], n) == (r.w, Done(r.ok));
      var c1 := StepsOf(c, a, n);
      StepsAre(c, a, n);
      schedule := SomeSchedule(c1, d, scripts, rest);
      RunLeaves(c1, schedule, a);
      RunTimes(c, a, n, schedule);
      schedule := Times(a, n) + schedule;
    }
  }

  lemma {:induction false} SamePasses(c: Conf, schedule: seq<string>)
    ensures RunAll(c, schedule).progs.Keys == c.progs.Keys
    decreases schedule
  {
    hide Perform;
    if schedule != [] {
      SamePasses(StepOf(c, schedule[0]), schedule[1..]);
    }
  }

  /** So whole passes for distinct services commute: every order ends in the same world. */
  lemma OrderDoesNotMatter(w: World, d: Daemon, scripts: map<string, Script>, owner: Owner, order: seq<string>, order': seq<string>)
    requires Concurrent(w, d, scripts, owner)
    requires Distinct(order) && (forall id :: id in order <==> id in scripts)
    requires Distinct(order') && (forall id :: id in order' <==> id in scripts)
    ensures InTurn(w, d, scripts, order) == InTurn(w, d, scripts, order')
  {
    hide Concurrent;
    hide ReconcileProg;
    hide RunAll;
    hide InTurn;
    hide Distinct;
    var schedule := SomeSchedule(Begin(w, d, scripts), d, scripts, order);
    SamePasses(Begin(w, d, scripts), schedule);
    Serializable(w, d, scripts, owner, schedule, order);
    Serializable(w, d, scripts, owner, schedule, order');
  }
}
