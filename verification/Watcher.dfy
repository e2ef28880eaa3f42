/** The watcher of watcher.go: resubscription with backoff, and the periodic resync. Times
    and durations are nanoseconds. */
module Watcher {
  import opened Text
  import opened Gateway
  import opened Labels
  import opened World

  const SECOND := 1_000_000_000
  const MAX_BACKOFF := 30 * SECOND
  const TWO_62 := 0x4000_0000_0000_0000
  const TWO_63 := 0x8000_0000_0000_0000
  const TWO_64 := 0x1_0000_0000_0000_0000

  // ---------- backoff ----------

  /** Go's time.Duration, a 64-bit count of nanoseconds. */
  type Duration = x: int | -TWO_63 <= x < TWO_63

  /** Two's-complement wrap-around of a 64-bit result. */
  function Wrap64(x: int): Duration { (x + TWO_63) % TWO_64 - TWO_63 }

  /** nextBackoff. */
  function NextBackoff(d: Duration): (n: Duration)
    ensures 0 < n <= MAX_BACKOFF
  {
    var n := Wrap64(d * 2);
    var n := if n > MAX_BACKOFF then MAX_BACKOFF else n;
    if n <= 0 then SECOND else n
  }

  function Min(a: int, b: int): int { if a <= b then a else b }

  /** What it computes for every 64-bit input, overflow included. */
  lemma NextBackoffExact(d: Duration)
    ensures NextBackoff(d) ==
            if 0 < d < TWO_62 then Min(2 * d, MAX_BACKOFF)
            else if -TWO_63 < d < -TWO_62 then Min(2 * d + TWO_64, MAX_BACKOFF)
            else SECOND
  {
    if d >= TWO_62 {
      assert (2 * d + TWO_63) % TWO_64 == 2 * d + TWO_63 - TWO_64;
    } else if d < -TWO_62 {
      assert (2 * d + TWO_63) % TWO_64 == 2 * d + TWO_63 + TWO_64;
    } else {
      assert (2 * d + TWO_63) % TWO_64 == 2 * d + TWO_63;
    }
  }

  function Base(configured: Duration): (b: Duration)
    ensures b > 0
  {
    if configured <= 0 then SECOND else configured
  }

  function Pow2(k: nat): (p: int)
    ensures p >= 1
  {
    if k == 0 then 1 else 2 * Pow2(k - 1)
  }

  /** How long the k-th failure in a row waits: the base, doubled each time, capped. A base
      that overflows when doubled gives way to one second. */
  function Wait(base: Duration, k: nat): int {
    if k == 0 then base
    else if base < TWO_62 then Min(base * Pow2(k), MAX_BACKOFF)
    else Min(SECOND * Pow2(k - 1), MAX_BACKOFF)
  }

  lemma NextWait(base: Duration, k: nat)
    requires 0 < base
    ensures 0 < Wait(base, k) < TWO_63 && NextBackoff(Wait(base, k)) == Wait(base, k + 1)
    ensures base <= MAX_BACKOFF ==> Wait(base, k) == Min(base * Pow2(k), MAX_BACKOFF)
  {
    PowTimes(base, k);
    NextBackoffExact(base);
    if k > 0 {
      PowTimes(SECOND, k - 1);
      NextBackoffExact(Wait(base, k));
    }
  }

  lemma PowTimes(base: int, k: nat)
    requires base > 0
    ensures base * Pow2(k) >= base && base * Pow2(k + 1) == 2 * (base * Pow2(k))
  {
    var p := Pow2(k);
    assert Pow2(k + 1) == 2 * p;
    assert base * p >= base;
  }

  // ---------- the loop of Run ----------

  /** `live`: eventsCh is not nil. `deadline`: resubAt, None when it is the zero time. */
  datatype Loop = Loop(live: bool, deadline: Option<int>, backoff: Duration)

  datatype Happening =
    | Ticked(lists: seq<Option<seq<string>>>, accepts: string -> bool)
    | Arrived(id: string, accepted: bool)
    | Closed(now: int)
    | TimerFired(ok: bool, now: int)

  function Subscribed(configured: Duration, l: Loop, ok: bool, now: int): Loop {
    if ok then Loop(true, None, Base(configured))
    else l.(deadline := Some(now + l.backoff), backoff := NextBackoff(l.backoff))
  }

  /** What the select can deliver: nothing arrives on a nil channel, and a timer exists only
      without a subscription, firing no earlier than its deadline. */
  predicate Possible(l: Loop, h: Happening) {
    match h
    case Ticked(_, _) => true
    case Arrived(_, _) => l.live
    case Closed(_) => l.live
    case TimerFired(_, now) => !l.live && l.deadline.Some? && now >= l.deadline.value
  }

  function React(configured: Duration, l: Loop, h: Happening): Loop {
    match h
    case Ticked(_, _) => l
    case Arrived(_, _) => l
    case Closed(now) => Loop(false, Some(now + l.backoff), NextBackoff(l.backoff))
    case TimerFired(ok, now) => Subscribed(configured, l, ok, now)
  }

  /** Failures in a row, stream ends included, and the time of the last one. */
  datatype Trouble = Trouble(fails: nat, at: int)

  function Recount(t: Trouble, h: Happening): Trouble {
    match h
    case Closed(now) => Trouble(t.fails + 1, now)
    case TimerFired(ok, now) => if ok then Trouble(0, now) else Trouble(t.fails + 1, now)
    case _ => t
  }

  /** Exactly one of a live subscription and an armed retry, and the retry is due one wait
      after the last failure. */
  ghost predicate Healthy(base: Duration, l: Loop, t: Trouble) {
    && (l.live <==> l.deadline.None?)
    && l.backoff == Wait(base, t.fails)
    && (l.live <==> t.fails == 0)
    && (!l.live ==> l.deadline == Some(t.at + Wait(base, t.fails - 1)))
  }

  lemma HealthyStep(configured: Duration, l: Loop, t: Trouble, h: Happening)
    requires Healthy(Base(configured), l, t) && Possible(l, h)
    ensures Healthy(Base(configured), React(configured, l, h), Recount(t, h))
  {
    NextWait(Base(configured), t.fails);
  }

  ghost predicate AllPossible(configured: Duration, l: Loop, hs: seq<Happening>)
    decreases hs
  {
    hs == [] || (Possible(l, hs[0]) && AllPossible(configured, React(configured, l, hs[0]), hs[1..]))
  }

  function LoopAfter(configured: Duration, l: Loop, hs: seq<Happening>): Loop
    decreases hs
  {
    if hs == [] then l else LoopAfter(configured, React(configured, l, hs[0]), hs[1..])
  }

  function TroubleAfter(t: Trouble, hs: seq<Happening>): Trouble
    decreases hs
  {
    if hs == [] then t else TroubleAfter(Recount(t, hs[0]), hs[1..])
  }

  /** The watcher never wedges, whatever happens in whatever order and whatever interval is
      configured. */
  lemma {:induction false} NeverWedged(configured: Duration, l: Loop, t: Trouble, hs: seq<Happening>)
    requires Healthy(Base(configured), l, t) && AllPossible(configured, l, hs)
    ensures Healthy(Base(configured), LoopAfter(configured, l, hs), TroubleAfter(t, hs))
    decreases hs
  {
    hide Healthy;
    hide React;
    if hs != [] {
      HealthyStep(configured, l, t, hs[0]);
      NeverWedged(configured, React(configured, l, hs[0]), Recount(t, hs[0]), hs[1..]);
    }
  }

  // ---------- resync ----------

  /** First occurrences of the non-empty IDs, skipping those in `seen`. */
  function Fresh(ids: seq<string>, seen: set<string>): seq<string> {
    if ids == [] then []
    else if ids[0] == "" || ids[0] in seen then Fresh(ids[1..], seen)
    else [ids[0]] + Fresh(ids[1..], seen + {ids[0]})
  }

  /** The listings that succeeded, one after the other. */
  function Listed(lists: seq<Option<seq<string>>>): seq<string> {
    if lists == [] then []
    else (if lists[0].Some? then lists[0].value else []) + Listed(lists[1..])
  }

  function Offers(lists: seq<Option<seq<string>>>): seq<string> { Fresh(Listed(lists), {}) }

  function Accepted(ids: seq<string>, accepts: string -> bool): seq<string> {
    if ids == [] then [] else (if accepts(ids[0]) then [ids[0]] else []) + Accepted(ids[1..], accepts)
  }

  function Ids(s: seq<string>): set<string> { set id | id in s && id != "" }

  lemma {:induction false} FreshOnce(ids: seq<string>, seen: set<string>)
    ensures forall j, k :: 0 <= j < k < |Fresh(ids, seen)| ==> Fresh(ids, seen)[j] != Fresh(ids, seen)[k]
    ensures forall id :: id in Fresh(ids, seen) <==> id in ids && id != "" && id !in seen
    decreases ids
  {
    if ids != [] {
      var x, rest := ids[0], ids[1..];
      assert forall id :: id in ids <==> id == x || id in rest;
      FreshOnce(rest, if x == "" || x in seen then seen else seen + {x});
    }
  }

  lemma {:induction false} DistinctCount(s: seq<string>, all: set<string>)
    requires forall j, k :: 0 <= j < k < |s| ==> s[j] != s[k]
    requires forall id :: id in s <==> id in all
    ensures |s| == |all|
  {
    if s == [] {
      assert all == {};
    } else {
      var x, rest := s[0], s[1..];
      assert forall id :: id in s <==> id == x || id in rest;
      DistinctCount(rest, all - {x});
    }
  }

  /** Each non-empty listed ID is offered exactly once. */
  lemma FreshExact(ids: seq<string>, seen: set<string>)
    ensures var r := Fresh(ids, seen);
            && (forall j, k :: 0 <= j < k < |r| ==> r[j] != r[k])
            && (forall id :: id in r <==> id in ids && id != "" && id !in seen)
            && |r| == |Ids(ids) - seen|
  {
    FreshOnce(ids, seen);
    hide Fresh;
    DistinctCount(Fresh(ids, seen), Ids(ids) - seen);
  }

  lemma {:induction false} FreshConcat(a: seq<string>, b: seq<string>, seen: set<string>)
    ensures Fresh(a + b, seen) == Fresh(a, seen) + Fresh(b, seen + Ids(a))
    decreases a
  {
    if a == [] {
      assert a + b == b && seen + Ids(a) == seen;
    } else {
      assert (a + b)[1..] == a[1..] + b;
      assert forall id :: id in a <==> id == a[0] || id in a[1..];
      if a[0] == "" || a[0] in seen {
        FreshConcat(a[1..], b, seen);
        assert seen + Ids(a) == seen + Ids(a[1..]);
      } else {
        FreshConcat(a[1..], b, seen + {a[0]});
        assert seen + {a[0]} + Ids(a[1..]) == seen + Ids(a);
      }
    }
  }

  lemma FreshSnoc(done: seq<string>, x: string)
    ensures Fresh(done + [x], {}) == Fresh(done, {}) + (if x == "" || x in Ids(done) then [] else [x])
    ensures Ids(done + [x]) == Ids(done) + (if x == "" then {} else {x})
  {
    FreshConcat(done, [x], {});
    var none: set<string> := {};
    assert none + Ids(done) == Ids(done);
    assert [x][1..] == [];
    assert forall id :: id in done + [x] <==> id in done || id == x;
  }

  lemma {:induction false} AcceptedSnoc(ids: seq<string>, x: string, accepts: string -> bool)
    ensures Accepted(ids + [x], accepts) == Accepted(ids, accepts) + (if accepts(x) then [x] else [])
  {
    if ids == [] {
      assert [x][1..] == [] && [] + [x] == [x];
    } else {
      assert (ids + [x])[1..] == ids[1..] + [x] && (ids + [x])[0] == ids[0];
      AcceptedSnoc(ids[1..], x, accepts);
      var head := if accepts(ids[0]) then [ids[0]] else [];
      assert Accepted(ids + [x], accepts) == head + Accepted(ids[1..] + [x], accepts);
    }
  }

  lemma {:induction false} ListedSnoc(lists: seq<Option<seq<string>>>, l: Option<seq<string>>)
    ensures Listed(lists + [l]) == Listed(lists) + (if l.Some? then l.value else [])
  {
    if lists == [] {
      assert (lists + [l])[1..] == [];
    } else {
      assert (lists + [l])[1..] == lists[1..] + [l];
      ListedSnoc(lists[1..], l);
    }
  }

  /** Accepted and dropped together are the union of the two listings, each ID counted once. */
  lemma OffersExact(lists: seq<Option<seq<string>>>)
    ensures var r := Offers(lists);
            && (forall j, k :: 0 <= j < k < |r| ==> r[j] != r[k])
            && (forall id :: id in r <==> id in Ids(Listed(lists)))
            && |r| == |Ids(Listed(lists))|
  {
    FreshExact(Listed(lists), {});
    assert Ids(Listed(lists)) - {} == Ids(Listed(lists));
  }

  /** The working state of fullList after the IDs in `done`. */
  ghost predicate Tallied(out0: seq<string>, out: seq<string>, seen: set<string>, dropped: nat, done: seq<string>, accepts: string -> bool) {
    && seen == Ids(done) && out == out0 + Accepted(Fresh(done, {}), accepts)
    && |Accepted(Fresh(done, {}), accepts)| + dropped == |Fresh(done, {})|
  }

  lemma TallyStarts(out: seq<string>, accepts: string -> bool)
    ensures Tallied(out, out, {}, 0, [], accepts)
  {
  }

  lemma TallyStep(out0: seq<string>, out: seq<string>, seen: set<string>, dropped: nat, done: seq<string>, accepts: string -> bool, id: string)
    requires Tallied(out0, out, seen, dropped, done, accepts)
    ensures if id == "" || id in seen then Tallied(out0, out, seen, dropped, done + [id], accepts)
            else if accepts(id) then Tallied(out0, out + [id], seen + {id}, dropped, done + [id], accepts)
            else Tallied(out0, out, seen + {id}, dropped + 1, done + [id], accepts)
  {
    hide Fresh;
    hide Accepted;
    FreshSnoc(done, id);
    AcceptedSnoc(Fresh(done, {}), id, accepts);
    hide Ids;
    assert Fresh(done, {}) + [] == Fresh(done, {}) && seen + {} == seen;
    assert id in seen ==> seen + {id} == seen;
    assert out0 + (Accepted(Fresh(done, {}), accepts) + [id]) == out + [id];
  }

  lemma TallyEnds(out0: seq<string>, out: seq<string>, seen: set<string>, dropped: nat, lists: seq<Option<seq<string>>>, accepts: string -> bool)
    requires Tallied(out0, out, seen, dropped, Listed(lists), accepts)
    ensures out == out0 + Accepted(Offers(lists), accepts)
    ensures |Accepted(Offers(lists), accepts)| + dropped == |Ids(Listed(lists))|
  {
    OffersExact(lists);
  }

  lemma ListedNil()
    ensures Listed([]) == []
  {
  }

  /** What a happening must send on: the accepted offers of a tick, the accepted ID of an
      event that has one. */
  function SentBy(h: Happening): seq<string> {
    match h
    case Ticked(lists, accepts) => Accepted(Offers(lists), accepts)
    case Arrived(id, accepted) => if id != "" && accepted then [id] else []
    case Closed(_) => []
    case TimerFired(_, _) => []
  }

  function SentOver(hs: seq<Happening>): seq<string> {
    if hs == [] then [] else SentBy(hs[0]) + SentOver(hs[1..])
  }

  lemma {:induction false} AcceptedIff(ids: seq<string>, accepts: string -> bool, id: string)
    ensures id in Accepted(ids, accepts) <==> id in ids && accepts(id)
  {
    if ids != [] {
      AcceptedIff(ids[1..], accepts, id);
      assert forall x :: x in ids <==> x == ids[0] || x in ids[1..];
    }
  }

  /** The happening asks for the service to be reconciled: its own event arrived, or a resync
      listed it; and the consumer had room. */
  ghost predicate AsksFor(h: Happening, id: string) {
    && id != ""
    && match h
       case Ticked(lists, accepts) => accepts(id) && exists l :: l in lists && l.Some? && id in l.value
       case Arrived(x, accepted) => x == id && accepted
       case Closed(_) => false
       case TimerFired(_, _) => false
  }

  lemma {:induction false} ListedIff(lists: seq<Option<seq<string>>>, id: string)
    ensures id in Listed(lists) <==> exists l :: l in lists && l.Some? && id in l.value
  {
    if lists != [] {
      ListedIff(lists[1..], id);
      assert forall l :: l in lists <==> l == lists[0] || l in lists[1..];
    }
  }

  lemma SentByIff(h: Happening, id: string)
    ensures id in SentBy(h) <==> AsksFor(h, id)
  {
    hide Offers;
    hide Listed;
    if h.Ticked? {
      AcceptedIff(Offers(h.lists), h.accepts, id);
      OffersExact(h.lists);
      ListedIff(h.lists, id);
    }
  }

  /** Exactly what is sent over a run of the loop: no event and no listed service is missed,
      and nothing else is sent. */
  lemma {:induction false} SentIff(hs: seq<Happening>, id: string)
    ensures id in SentOver(hs) <==> exists h :: h in hs && AsksFor(h, id)
  {
    hide AsksFor;
    hide SentBy;
    if hs != [] {
      SentIff(hs[1..], id);
      SentByIff(hs[0], id);
      assert forall h :: h in hs <==> h == hs[0] || h in hs[1..];
    }
  }

  // ---------- the watcher as it runs ----------

  class Watcher {
    const configured: Duration
    var eventsCh: bool
    var resubAt: Option<int>
    var backoff: Duration
    var out: seq<string>
    ghost var trouble: Trouble

    function View(): Loop
      reads this
    {
      Loop(eventsCh, resubAt, backoff)
    }

    ghost predicate Valid()
      reads this
    {
      Healthy(Base(configured), View(), trouble)
    }

    /** The part of Run before its loop: a first resync, then a first subscribe. */
    constructor (reconnect: Duration, lists: seq<Option<seq<string>>>, accepts: string -> bool, ok: bool, now: int)
      ensures Valid() && configured == reconnect && trouble == Trouble(if ok then 0 else 1, now)
      ensures out == Accepted(Offers(lists), accepts)
    {
      configured := reconnect;
      eventsCh := false;
      resubAt := None;
      backoff := Base(reconnect);
      out := [];
      trouble := Trouble(0, now);
      new;
      var _ := FullList(lists, accepts);
      Subscribe(ok, now);
      NextWait(Base(configured), 0);
      trouble := Trouble(if ok then 0 else 1, now);
    }

    /** The `subscribe` closure. */
    method Subscribe(ok: bool, now: int)
      modifies this`eventsCh, this`resubAt, this`backoff
      ensures View() == Subscribed(configured, old(View()), ok, now)
    {
      if !ok {
        resubAt := Some(now + backoff);
        backoff := NextBackoff(backoff);
        return;
      }
      eventsCh := true;
      resubAt := None;
      backoff := configured;
      if backoff <= 0 {
        backoff := SECOND;
      }
    }

    /** fullList: what was sent is what was offered and accepted, in order; the rest counts
        as dropped. */
    method FullList(lists: seq<Option<seq<string>>>, accepts: string -> bool) returns (dropped: nat)
      modifies this`out
      ensures out == old(out) + Accepted(Offers(lists), accepts)
      ensures |Accepted(Offers(lists), accepts)| + dropped == |Ids(Listed(lists))|
    {
      hide Tallied;
      hide Listed;
      var seen: set<string> := {};
      dropped := 0;
      ghost var done: seq<string> := [];
      TallyStarts(out, accepts);
      ListedNil();
      for i := 0 to |lists|
        invariant done == Listed(lists[..i]) && Tallied(old(out), out, seen, dropped, done, accepts)
      {
        assert lists[..i + 1] == lists[..i] + [lists[i]];
        ListedSnoc(lists[..i], lists[i]);
        if lists[i].None? {
          continue;
        }
        var svcs := lists[i].value;
        ghost var before := done;
        assert before + svcs[..0] == done;
        for j := 0 to |svcs|
          invariant done == before + svcs[..j] && Tallied(old(out), out, seen, dropped, done, accepts)
        {
          var id := svcs[j];
          TallyStep(old(out), out, seen, dropped, done, accepts, id);
          assert before + svcs[..j + 1] == done + [id];
          done := done + [id];
          if id == "" {
            continue;
          }
          if id in seen {
            continue;
          }
          seen := seen + {id};
          if accepts(id) {
            out := out + [id];
          } else {
            dropped := dropped + 1;
          }
        }
        assert before + svcs[..|svcs|] == before + svcs;
      }
      assert lists[..|lists|] == lists;
      TallyEnds(old(out), out, seen, dropped, lists, accepts);
    }

    /** One turn of the select loop. */
    method Turn(h: Happening)
      requires Valid() && Possible(View(), h)
      modifies this
      ensures Valid() && View() == React(configured, old(View()), h)
      ensures trouble == Recount(old(trouble), h)
      ensures out == old(out) + SentBy(h)
    {
      ghost var l := View();
      HealthyStep(configured, l, trouble, h);
      match h {
        case Ticked(lists, accepts) =>
          var _ := FullList(lists, accepts);
        case Arrived(id, ok) =>
          if id != "" && ok {
            out := out + [id];
          }
        case Closed(now) =>
          eventsCh := false;
          resubAt := Some(now + backoff);
          backoff := NextBackoff(backoff);
        case TimerFired(ok, now) =>
          Subscribe(ok, now);
      }
      trouble := Recount(trouble, h);
      assert View() == React(configured, l, h);
    }

    /** Run over everything the select delivers until the context is cancelled. */
    method Run(hs: seq<Happening>)
      requires Valid() && AllPossible(configured, View(), hs)
      modifies this
      ensures Valid() && View() == old(LoopAfter(configured, View(), hs)) && trouble == TroubleAfter(old(trouble), hs)
      ensures out == old(out) + SentOver(hs)
    {
      hide SentBy;
      hide Healthy;
      hide React;
      hide Possible;
      hide Recount;
      ghost var l0, t0 := View(), trouble;
      assert hs[0..] == hs;
      for i := 0 to |hs|
        invariant Valid() && AllPossible(configured, View(), hs[i..])
        invariant LoopAfter(configured, View(), hs[i..]) == LoopAfter(configured, l0, hs)
        invariant TroubleAfter(trouble, hs[i..]) == TroubleAfter(t0, hs)
        invariant out + SentOver(hs[i..]) == old(out) + SentOver(hs)
      {
        assert hs[i..][1..] == hs[i + 1..];
        assert out + SentOver(hs[i..]) == (out + SentBy(hs[i])) + SentOver(hs[i + 1..]);
        Turn(hs[i]);
      }
    }
  }

  // ---------- what resync sees of the cluster ----------

  /** The services whose label has exactly that value. */
  function WithLabel(v: map<string, Service>, key: string, value: string): set<string> {
    set s | s in v && Lookup(v[s].spec.labels, key) == Some(value)
  }

  /** ListServices with a label filter: it fails, or lists in some order the services that
      spell the label "true". */
  ghost predicate Lists(l: Option<seq<string>>, v: map<string, Service>, key: string) {
    l.Some? ==> forall s :: s in l.value <==> s in WithLabel(v, key, "true")
  }

  /** The two listings of a resync; the cluster may change in between. */
  ghost predicate Resyncs(lists: seq<Option<seq<string>>>, rules: Rules, v: map<string, Service>, v': map<string, Service>) {
    |lists| == 2 && Lists(lists[0], v, rules.Key("enable")) && Lists(lists[1], v', rules.Key("egress.enable"))
  }

  /** Exactly what a resync offers, failed listings included. */
  lemma OfferedIff(lists: seq<Option<seq<string>>>, rules: Rules, v: map<string, Service>, v': map<string, Service>, s: string)
    requires Resyncs(lists, rules, v, v')
    ensures s in Offers(lists) <==>
            && s != ""
            && (|| (lists[0].Some? && s in WithLabel(v, rules.Key("enable"), "true"))
                || (lists[1].Some? && s in WithLabel(v', rules.Key("egress.enable"), "true")))
  {
    hide WithLabel;
    hide Offers;
    OffersExact(lists);
    assert Listed(lists[1..]) == (if lists[1].Some? then lists[1].value else []) + Listed(lists[1..][1..]);
  }

  /** The service is a gateway in this state, if it runs at all. */
  ghost predicate IfRunningGateway(v: map<string, Service>, s: string) {
    s in v ==> exists cfg, eg, t, app, image, key :: v[s].spec == Spec(cfg, eg, t, app, image, key)
  }

  lemma GatewayUnlisted(v: map<string, Service>, rules: Rules, s: string)
    requires IfRunningGateway(v, s)
    ensures s !in WithLabel(v, rules.Key("enable"), "true") && s !in WithLabel(v, rules.Key("egress.enable"), "true")
  {
    if s in v {
      var cfg, eg, t, app, image, key :| v[s].spec == Spec(cfg, eg, t, app, image, key);
      assert v[s].spec.labels.Keys == {GATEWAY_FOR};
      GatewayNeverOptsIn(rules, v[s].spec);
    }
  }

  /** No gateway is ever offered, whatever namespace is configured and whichever listing
      fails. */
  lemma ResyncSkipsGateways(lists: seq<Option<seq<string>>>, rules: Rules, v: map<string, Service>, v': map<string, Service>, s: string)
    requires Resyncs(lists, rules, v, v') && IfRunningGateway(v, s) && IfRunningGateway(v', s)
    ensures s !in Offers(lists)
  {
    hide WithLabel;
    hide Offers;
    hide IfRunningGateway;
    hide Resyncs;
    OfferedIff(lists, rules, v, v', s);
    GatewayUnlisted(v, rules, s);
    GatewayUnlisted(v', rules, s);
  }

  lemma SpelledOut(s: string)
    requires s in {"true", "yes"}
    ensures IsTrue(s)
  {
    hide TrimSpace;
    hide Lower;
    TrimSpaceTrims(s);
    LowerIff(s, s);
  }

  /** A resync with both listings reaches exactly the services that spell a label "true", and
      each of them has opted in. The parser also takes "1", "yes", "on", other case and
      surrounding blanks, and a service that opts in that way is never retried by a resync. */
  lemma ResyncReachesIff(lists: seq<Option<seq<string>>>, rules: Rules, v: map<string, Service>, s: string)
    requires Resyncs(lists, rules, v, v) && lists[0].Some? && lists[1].Some? && s in v && s != ""
    ensures s in Offers(lists) <==>
            Get(v[s].spec.labels, rules.Key("enable")) == "true" || Get(v[s].spec.labels, rules.Key("egress.enable")) == "true"
    ensures s in Offers(lists) ==> IngressOn(rules, v[s].spec) || EgressOn(rules, v[s].spec)
  {
    hide Offers;
    hide IsTrue;
    hide Resyncs;
    OfferedIff(lists, rules, v, v, s);
    SpelledOut("true");
  }

  lemma OptInMissed(lists: seq<Option<seq<string>>>, rules: Rules, v: map<string, Service>, s: string)
    requires Resyncs(lists, rules, v, v) && s in v && v[s].spec.labels == map[rules.Key("enable") := "yes"]
    ensures IngressOn(rules, v[s].spec) && s !in Offers(lists)
  {
    hide Offers;
    hide IsTrue;
    hide Resyncs;
    OfferedIff(lists, rules, v, v, s);
    SpelledOut("yes");
    assert "yes"[0] != "true"[0];
    assert |rules.Key("egress.enable")| == |rules.Key("enable")| + 7;
  }
}
