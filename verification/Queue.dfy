/** The sharded work queue of reconciler.go, as the atomic steps its threads interleave:
    an Enqueue marks under the lock, then sends or is refused, then unmarks if refused; a
    shard's worker receives, unmarks under the lock, and runs. */
module Queue {
  import opened Text

  datatype Worker = Idle | Received(id: string) | Running(id: string)

  datatype Shard = Shard(pending: set<string>, ch: seq<string>, worker: Worker)

  /** An Enqueue call past its mark: about to send, or refused and about to unmark. */
  datatype Call = Marked(id: string) | Refused(id: string)

  datatype Queue = Queue(shards: seq<Shard>, calls: map<nat, Call>)

  /** `shardOf` is the FNV hash modulo the stride. */
  datatype Setup = Setup(buffer: nat, workers: nat, shardOf: string -> nat)

  ghost predicate Sane(c: Setup) { c.buffer >= 1 && c.workers >= 1 && forall id :: c.shardOf(id) < c.workers }

  function NewQueue(c: Setup): Queue { Queue(seq(c.workers, _ => Shard({}, [], Idle)), map[]) }

  // ---------- steps ----------

  datatype Step =
    | Mark(producer: nat, id: string)
    | Send(producer: nat)
    | Unmark(producer: nat)
    | Receive(shard: nat)
    | Start(shard: nat)
    | Finish(shard: nat)

  predicate Enabled(c: Setup, q: Queue, s: Step) {
    |q.shards| == c.workers &&
    match s
    case Mark(p, id) => p !in q.calls && c.shardOf(id) < c.workers
    case Send(p) => p in q.calls && q.calls[p].Marked? && c.shardOf(q.calls[p].id) < c.workers
    case Unmark(p) => p in q.calls && q.calls[p].Refused? && c.shardOf(q.calls[p].id) < c.workers
    case Receive(i) => i < c.workers && q.shards[i].worker.Idle? && q.shards[i].ch != []
    case Start(i) => i < c.workers && q.shards[i].worker.Received?
    case Finish(i) => i < c.workers && q.shards[i].worker.Running?
  }

  function With(q: Queue, i: nat, s: Shard): Queue
    requires i < |q.shards|
  {
    q.(shards := q.shards[i := s])
  }

  function Do(c: Setup, q: Queue, s: Step): Queue
    requires Enabled(c, q, s)
  {
    match s
    case Mark(p, id) =>
      var i := c.shardOf(id);
      var sh := q.shards[i];
      if id in sh.pending then q
      else With(q, i, sh.(pending := sh.pending + {id})).(calls := q.calls[p := Marked(id)])
    case Send(p) =>
      var id := q.calls[p].id;
      var i := c.shardOf(id);
      var sh := q.shards[i];
      if |sh.ch| < c.buffer then With(q, i, sh.(ch := sh.ch + [id])).(calls := q.calls - {p})
      else q.(calls := q.calls[p := Refused(id)])
    case Unmark(p) =>
      var id := q.calls[p].id;
      var i := c.shardOf(id);
      var sh := q.shards[i];
      With(q, i, sh.(pending := sh.pending - {id})).(calls := q.calls - {p})
    case Receive(i) =>
      var sh := q.shards[i];
      With(q, i, sh.(ch := sh.ch[1..], worker := Received(sh.ch[0])))
    case Start(i) =>
      var sh := q.shards[i];
      With(q, i, sh.(pending := sh.pending - {sh.worker.id}, worker := Running(sh.worker.id)))
    case Finish(i) => With(q, i, q.shards[i].(worker := Idle))
  }

  /** What Enqueue returns, if this step ends the call, and for which ID. */
  function Returns(c: Setup, q: Queue, s: Step): Option<(string, bool)>
    requires Enabled(c, q, s)
  {
    match s
    case Mark(p, id) => if id in q.shards[c.shardOf(id)].pending then Some((id, true)) else None
    case Send(p) => if |q.shards[c.shardOf(q.calls[p].id)].ch| < c.buffer then Some((q.calls[p].id, true)) else None
    case Unmark(p) => Some((q.calls[p].id, false))
    case _ => None
  }

  ghost predicate Legal(c: Setup, q: Queue, steps: seq<Step>)
    decreases steps
  {
    steps == [] || (Enabled(c, q, steps[0]) && Legal(c, Do(c, q, steps[0]), steps[1..]))
  }

  ghost function After(c: Setup, q: Queue, steps: seq<Step>): Queue
    requires Legal(c, q, steps)
    decreases steps
  {
    if steps == [] then q else After(c, Do(c, q, steps[0]), steps[1..])
  }

  // ---------- the invariant ----------

  function InChannel(sh: Shard): set<string> { set id | id in sh.ch }

  function InHand(sh: Shard): set<string> { if sh.worker.Received? then {sh.worker.id} else {} }

  function HeldFor(c: Setup, calls: map<nat, Call>, i: nat): set<string> {
    set p | p in calls && c.shardOf(calls[p].id) == i :: calls[p].id
  }

  ghost predicate NoRepeats(s: seq<string>) { forall j, k :: 0 <= j < k < |s| ==> s[j] != s[k] }

  /** pending is the disjoint union of the channel, the calls between mark and send or
      unmark, and the ID received but not yet unmarked. */
  ghost predicate ShardInv(c: Setup, calls: map<nat, Call>, sh: Shard, i: nat) {
    && sh.pending == InChannel(sh) + HeldFor(c, calls, i) + InHand(sh)
    && InChannel(sh) !! HeldFor(c, calls, i) && InChannel(sh) !! InHand(sh) && HeldFor(c, calls, i) !! InHand(sh)
    && NoRepeats(sh.ch) && |sh.ch| <= c.buffer
    && (forall id :: id in sh.pending ==> c.shardOf(id) == i)
    && (sh.worker.Running? ==> c.shardOf(sh.worker.id) == i)
  }

  ghost predicate Inv(c: Setup, q: Queue) {
    && |q.shards| == c.workers
    && (forall i :: 0 <= i < |q.shards| ==> ShardInv(c, q.calls, q.shards[i], i))
    && DistinctCalls(q.calls)
  }

  lemma InvStarts(c: Setup)
    requires Sane(c)
    ensures Inv(c, NewQueue(c))
  {
    assert forall i :: HeldFor(c, map[], i) == {};
  }

  /** A call's ID is held in its own shard and no other. */
  lemma HeldElsewhereSame(c: Setup, calls: map<nat, Call>, calls': map<nat, Call>, p: nat, i: nat)
    requires calls - {p} == calls' - {p}
    requires p in calls ==> c.shardOf(calls[p].id) != i
    requires p in calls' ==> c.shardOf(calls'[p].id) != i
    ensures HeldFor(c, calls, i) == HeldFor(c, calls', i)
  {
    OthersSame(calls, calls', p);
  }

  lemma OthersSame(calls: map<nat, Call>, calls': map<nat, Call>, p: nat)
    requires calls - {p} == calls' - {p}
    ensures forall r :: r != p ==> (r in calls <==> r in calls') && (r in calls ==> calls[r] == calls'[r])
  {
    forall r | r != p ensures (r in calls <==> r in calls') && (r in calls ==> calls[r] == calls'[r]) {
      assert r in calls <==> r in calls - {p};
      assert r in calls' <==> r in calls' - {p};
      assert r in calls ==> (calls - {p})[r] == calls[r] && (calls' - {p})[r] == calls'[r];
    }
  }

  ghost predicate DistinctCalls(calls: map<nat, Call>) {
    forall p, p' :: p in calls && p' in calls && p != p' ==> calls[p].id != calls[p'].id
  }

  lemma HeldAdd(c: Setup, calls: map<nat, Call>, p: nat, k: Call)
    requires p !in calls
    ensures HeldFor(c, calls[p := k], c.shardOf(k.id)) == HeldFor(c, calls, c.shardOf(k.id)) + {k.id}
  {
    var i := c.shardOf(k.id);
    assert p in calls[p := k];
    forall id | id in HeldFor(c, calls, i) ensures id in HeldFor(c, calls[p := k], i) {
      var r :| r in calls && c.shardOf(calls[r].id) == i && calls[r].id == id;
      assert calls[p := k][r] == calls[r];
    }
  }

  lemma HeldDrop(c: Setup, calls: map<nat, Call>, p: nat)
    requires p in calls && DistinctCalls(calls)
    ensures HeldFor(c, calls - {p}, c.shardOf(calls[p].id)) == HeldFor(c, calls, c.shardOf(calls[p].id)) - {calls[p].id}
  {
    var i := c.shardOf(calls[p].id);
    forall id | id in HeldFor(c, calls, i) - {calls[p].id} ensures id in HeldFor(c, calls - {p}, i) {
      var r :| r in calls && c.shardOf(calls[r].id) == i && calls[r].id == id;
      assert r in calls - {p} && (calls - {p})[r] == calls[r];
    }
  }

  /** One shard and at most one call changed; the call is none of the other shards' business. */
  lemma InvLift(c: Setup, q: Queue, q': Queue, i: nat, p: nat)
    requires Inv(c, q) && i < |q.shards| && |q'.shards| == |q.shards|
    requires forall j :: 0 <= j < |q.shards| && j != i ==> q'.shards[j] == q.shards[j]
    requires q'.calls - {p} == q.calls - {p} && DistinctCalls(q'.calls)
    requires p in q.calls ==> c.shardOf(q.calls[p].id) == i
    requires p in q'.calls ==> c.shardOf(q'.calls[p].id) == i
    requires ShardInv(c, q'.calls, q'.shards[i], i)
    ensures Inv(c, q')
  {
    hide HeldFor;
    hide DistinctCalls;
    hide NoRepeats;
    hide InChannel;
    hide InHand;
    forall j | 0 <= j < |q.shards| ensures ShardInv(c, q'.calls, q'.shards[j], j) {
      if j != i {
        assert ShardInv(c, q.calls, q.shards[j], j);
        HeldElsewhereSame(c, q.calls, q'.calls, p, j);
      }
    }
  }

  lemma MarkKeeps(c: Setup, q: Queue, p: nat, id: string)
    requires Inv(c, q) && Enabled(c, q, Mark(p, id))
    ensures Inv(c, Do(c, q, Mark(p, id)))
  {
    hide HeldFor;
    var i := c.shardOf(id);
    if id !in q.shards[i].pending {
      var q' := Do(c, q, Mark(p, id));
      assert ShardInv(c, q.calls, q.shards[i], i);
      HeldAdd(c, q.calls, p, Marked(id));
      forall r | r in q.calls && c.shardOf(q.calls[r].id) == i ensures q.calls[r].id != id {
        HeldIsPending(c, q, r);
      }
      InvLift(c, q, q', i, p);
    }
  }

  lemma HeldIsPending(c: Setup, q: Queue, p: nat)
    requires Inv(c, q) && p in q.calls && c.shardOf(q.calls[p].id) < |q.shards|
    ensures var i := c.shardOf(q.calls[p].id);
            q.calls[p].id in HeldFor(c, q.calls, i) && q.calls[p].id in q.shards[i].pending
  {
    assert ShardInv(c, q.calls, q.shards[c.shardOf(q.calls[p].id)], c.shardOf(q.calls[p].id));
  }

  lemma SendKeeps(c: Setup, q: Queue, p: nat)
    requires Inv(c, q) && Enabled(c, q, Send(p))
    ensures Inv(c, Do(c, q, Send(p)))
  {
    hide HeldFor;
    var id := q.calls[p].id;
    var i := c.shardOf(id);
    var sh := q.shards[i];
    var q' := Do(c, q, Send(p));
    assert ShardInv(c, q.calls, sh, i);
    HeldIsPending(c, q, p);
    if |sh.ch| < c.buffer {
      HeldDrop(c, q.calls, p);
      var sh' := q'.shards[i];
      assert InChannel(sh') == InChannel(sh) + {id};
      assert id !in InChannel(sh);
      InvLift(c, q, q', i, p);
    } else {
      HeldSame(c, q.calls, p, Refused(id));
      forall j | 0 <= j < |q.shards| ensures ShardInv(c, q'.calls, q'.shards[j], j) {
        assert ShardInv(c, q.calls, q.shards[j], j);
        HeldSameAt(c, q.calls, p, Refused(id), j);
      }
    }
  }

  lemma HeldSame(c: Setup, calls: map<nat, Call>, p: nat, k: Call)
    requires p in calls && k.id == calls[p].id && DistinctCalls(calls)
    ensures DistinctCalls(calls[p := k])
  {
  }

  lemma HeldSameAt(c: Setup, calls: map<nat, Call>, p: nat, k: Call, i: nat)
    requires p in calls && k.id == calls[p].id
    ensures HeldFor(c, calls[p := k], i) == HeldFor(c, calls, i)
  {
    var calls' := calls[p := k];
    assert forall r :: r in calls <==> r in calls';
    assert forall r :: r in calls ==> calls'[r].id == calls[r].id;
  }

  lemma UnmarkKeeps(c: Setup, q: Queue, p: nat)
    requires Inv(c, q) && Enabled(c, q, Unmark(p))
    ensures Inv(c, Do(c, q, Unmark(p)))
  {
    hide HeldFor;
    var id := q.calls[p].id;
    var i := c.shardOf(id);
    var q' := Do(c, q, Unmark(p));
    assert ShardInv(c, q.calls, q.shards[i], i);
    HeldIsPending(c, q, p);
    HeldDrop(c, q.calls, p);
    InvLift(c, q, q', i, p);
  }

  lemma FreeProducer(calls: map<nat, Call>) returns (p: nat)
    ensures p !in calls && calls - {p} == calls
  {
    p := if calls == map[] then 0 else Largest(calls.Keys) + 1;
  }

  ghost function Largest(s: set<nat>): (m: nat)
    ensures forall x :: x in s ==> x <= m
  {
    if s == {} then 0
    else
      var x :| x in s;
      var m := Largest(s - {x});
      assert forall y :: y in s ==> y == x || y in s - {x};
      if x > m then x else m
  }

  lemma WorkerKeeps(c: Setup, q: Queue, s: Step)
    requires Inv(c, q) && Enabled(c, q, s) && (s.Receive? || s.Start? || s.Finish?)
    ensures Inv(c, Do(c, q, s))
  {
    hide HeldFor;
    var i := s.shard;
    var sh := q.shards[i];
    var q' := Do(c, q, s);
    assert ShardInv(c, q.calls, sh, i);
    if s.Receive? {
      var sh' := q'.shards[i];
      assert sh.ch == [sh.ch[0]] + sh.ch[1..];
      assert forall k :: 0 <= k < |sh'.ch| ==> sh'.ch[k] == sh.ch[k + 1];
      assert InChannel(sh') == InChannel(sh) - {sh.ch[0]};
      assert sh.ch[0] in InChannel(sh);
    }
    var p := FreeProducer(q.calls);
    InvLift(c, q, q', i, p);
  }

  /** Every step of every thread keeps the invariant. */
  lemma StepKeeps(c: Setup, q: Queue, s: Step)
    requires Inv(c, q) && Enabled(c, q, s)
    ensures Inv(c, Do(c, q, s))
  {
    hide Inv;
    match s
    case Mark(p, id) => MarkKeeps(c, q, p, id);
    case Send(p) => SendKeeps(c, q, p);
    case Unmark(p) => UnmarkKeeps(c, q, p);
    case _ => WorkerKeeps(c, q, s);
  }

  /** No service ID is being run twice at once. */
  ghost predicate OneRunPerId(q: Queue) {
    forall i, j :: 0 <= i < j < |q.shards| && q.shards[i].worker.Running? ==> q.shards[i].worker != q.shards[j].worker
  }

  /** Safety over all interleavings of any number of producers with the workers. */
  lemma {:induction false} QueueSafe(c: Setup, q: Queue, steps: seq<Step>)
    requires Inv(c, q) && Legal(c, q, steps)
    ensures Inv(c, After(c, q, steps)) && OneRunPerId(After(c, q, steps))
    decreases steps
  {
    hide Do;
    hide ShardInv;
    if steps == [] {
      forall i | 0 <= i < |q.shards| && q.shards[i].worker.Running? ensures c.shardOf(q.shards[i].worker.id) == i {
        RunningHere(c, q, i);
      }
    } else {
      StepKeeps(c, q, steps[0]);
      QueueSafe(c, Do(c, q, steps[0]), steps[1..]);
    }
  }

  lemma RunningHere(c: Setup, q: Queue, i: nat)
    requires Inv(c, q) && i < |q.shards| && q.shards[i].worker.Running?
    ensures c.shardOf(q.shards[i].worker.id) == i
  {
    assert ShardInv(c, q.calls, q.shards[i], i);
  }

  // ---------- what a returned true is worth ----------

  /** A run of `id` that has not started yet is certain. */
  predicate Owed(c: Setup, q: Queue, id: string) {
    c.shardOf(id) < |q.shards| && (id in q.shards[c.shardOf(id)].ch || q.shards[c.shardOf(id)].worker == Received(id))
  }

  /** All Enqueue calls come from one thread. */
  predicate OneProducer(q: Queue, p: nat) { q.calls.Keys <= {p} }

  predicate ByProducer(s: Step, p: nat) { (s.Mark? || s.Send? || s.Unmark?) ==> s.producer == p }

  lemma OneProducerStays(c: Setup, q: Queue, s: Step, p: nat)
    requires Enabled(c, q, s) && OneProducer(q, p) && ByProducer(s, p)
    ensures OneProducer(Do(c, q, s), p)
  {
  }

  /** What true is worth with any number of producers: a run is owed exactly unless the call
      relied on a mark that another call still holds and may take back. */
  lemma AcceptedOwedIff(c: Setup, q: Queue, s: Step, id: string)
    requires Inv(c, q) && Enabled(c, q, s) && Returns(c, q, s) == Some((id, true))
    ensures Owed(c, Do(c, q, s), id) <==> (s.Mark? ==> id !in HeldFor(c, q.calls, c.shardOf(id)))
  {
    var i := c.shardOf(id);
    var sh := q.shards[i];
    assert ShardInv(c, q.calls, sh, i);
    if s.Send? {
      assert Do(c, q, s).shards[i].ch == sh.ch + [id];
    }
  }

  /** With a single producer, an accepted Enqueue is owed a run when it returns; a refused
      one leaves the ID unmarked. */
  lemma AcceptedIsOwed(c: Setup, q: Queue, s: Step, p: nat, id: string, ok: bool)
    requires Inv(c, q) && Enabled(c, q, s) && OneProducer(q, p) && ByProducer(s, p)
    requires Returns(c, q, s) == Some((id, ok))
    ensures if ok then Owed(c, Do(c, q, s), id)
            else id !in Do(c, q, s).shards[c.shardOf(id)].pending && !Owed(c, Do(c, q, s), id)
  {
    var i := c.shardOf(id);
    if ok {
      AcceptedOwedIff(c, q, s, id);
      assert s.Mark? ==> q.calls == map[];
    } else {
      assert ShardInv(c, q.calls, q.shards[i], i);
      HeldIsPending(c, q, s.producer);
    }
  }

  /** The worker steps of its shard that come before the run of `id`, itself included. */
  function Position(s: seq<string>, id: string): nat {
    if s == [] || s[0] == id then 0 else 1 + Position(s[1..], id)
  }

  function Distance(c: Setup, q: Queue, id: string): nat
    requires c.shardOf(id) < |q.shards|
  {
    var sh := q.shards[c.shardOf(id)];
    if sh.worker == Received(id) then 1
    else (match sh.worker case Idle => 0 case Received(_) => 2 case Running(_) => 1) + 3 * Position(sh.ch, id) + 2
  }

  lemma {:induction false} PositionSnoc(s: seq<string>, x: string, id: string)
    requires id in s
    ensures Position(s + [x], id) == Position(s, id)
  {
    if s[0] != id {
      assert (s + [x])[1..] == s[1..] + [x];
      PositionSnoc(s[1..], x, id);
    }
  }

  predicate WorkerStep(s: Step, i: nat) { (s.Receive? || s.Start? || s.Finish?) && s.shard == i }

  predicate StartsRun(c: Setup, q: Queue, s: Step, id: string) {
    s == Start(c.shardOf(id)) && s.shard < |q.shards| && q.shards[s.shard].worker == Received(id)
  }

  lemma OwedProducerStep(c: Setup, q: Queue, s: Step, id: string)
    requires Enabled(c, q, s) && Owed(c, q, id) && !WorkerStep(s, c.shardOf(id))
    ensures var q' := Do(c, q, s);
            Owed(c, q', id) && Distance(c, q', id) == Distance(c, q, id)
  {
    hide Position;
    var i := c.shardOf(id);
    var sh := q.shards[i];
    var sh' := Do(c, q, s).shards[i];
    if s.Send? && sh'.ch != sh.ch && id in sh.ch {
      PositionSnoc(sh.ch, q.calls[s.producer].id, id);
    }
    assert sh'.worker == sh.worker && (sh'.ch == sh.ch || (s.Send? && sh'.ch == sh.ch + [q.calls[s.producer].id]));
    hide Do;
  }

  lemma OwedWorkerStep(c: Setup, q: Queue, s: Step, id: string)
    requires Enabled(c, q, s) && Owed(c, q, id) && WorkerStep(s, c.shardOf(id)) && !StartsRun(c, q, s, id)
    requires q.shards[c.shardOf(id)].worker == Received(id) ==> id !in q.shards[c.shardOf(id)].ch
    ensures var q' := Do(c, q, s);
            Owed(c, q', id) && Distance(c, q', id) == Distance(c, q, id) - 1
  {
    var i := c.shardOf(id);
    var sh := q.shards[i];
    if s.Receive? {
      assert sh.ch == [sh.ch[0]] + sh.ch[1..];
      assert sh.ch[0] != id ==> id in sh.ch[1..];
    }
  }

  /** An owed run stays owed until it starts, and only its shard's worker moves it, one step
      at a time. */
  lemma OwedStep(c: Setup, q: Queue, s: Step, id: string)
    requires Inv(c, q) && Enabled(c, q, s) && Owed(c, q, id) && !StartsRun(c, q, s, id)
    ensures var q' := Do(c, q, s);
            && Owed(c, q', id)
            && Distance(c, q', id) == Distance(c, q, id) - if WorkerStep(s, c.shardOf(id)) then 1 else 0
  {
    hide HeldFor;
    hide Do;
    hide Distance;
    hide StartsRun;
    hide Enabled;
    var i := c.shardOf(id);
    assert ShardInv(c, q.calls, q.shards[i], i);
    assert q.shards[i].worker == Received(id) ==> id in InHand(q.shards[i]);
    if WorkerStep(s, i) {
      OwedWorkerStep(c, q, s, id);
    } else {
      OwedProducerStep(c, q, s, id);
    }
  }

  lemma WorkerReady(c: Setup, q: Queue, id: string)
    requires Inv(c, q) && Owed(c, q, id)
    ensures exists s :: WorkerStep(s, c.shardOf(id)) && Enabled(c, q, s)
  {
    var i := c.shardOf(id);
    var s := match q.shards[i].worker case Idle => Receive(i) case Received(_) => Start(i) case Running(_) => Finish(i);
    assert WorkerStep(s, i) && Enabled(c, q, s);
  }

  ghost predicate StartsIn(c: Setup, q: Queue, steps: seq<Step>, id: string)
    requires Legal(c, q, steps)
    decreases steps
  {
    steps != [] && (StartsRun(c, q, steps[0], id) || StartsIn(c, Do(c, q, steps[0]), steps[1..], id))
  }

  function WorkerSteps(steps: seq<Step>, i: nat): nat {
    if steps == [] then 0 else (if WorkerStep(steps[0], i) then 1 else 0) + WorkerSteps(steps[1..], i)
  }

  /** From an owed state, under every interleaving: the run starts, or it is still owed and
      exactly as much nearer as its worker has moved. */
  lemma {:induction false} OwedUntilStarted(c: Setup, q: Queue, steps: seq<Step>, id: string)
    requires Inv(c, q) && Legal(c, q, steps) && Owed(c, q, id) && !StartsIn(c, q, steps, id)
    ensures var q' := After(c, q, steps);
            Owed(c, q', id) && Distance(c, q', id) == Distance(c, q, id) - WorkerSteps(steps, c.shardOf(id))
    decreases steps
  {
    hide Do;
    hide Inv;
    hide Owed;
    hide Distance;
    hide Enabled;
    hide StartsRun;
    OwedHere(c, q, id);
    if steps != [] {
      OwedStep(c, q, steps[0], id);
      StepKeeps(c, q, steps[0]);
      OwedUntilStarted(c, Do(c, q, steps[0]), steps[1..], id);
    }
  }

  lemma OwedHere(c: Setup, q: Queue, id: string)
    requires Owed(c, q, id)
    ensures c.shardOf(id) < |q.shards|
  {
  }

  /** The promise of Enqueue: with the daemon's single producer, once it has returned true,
      the run starts before that shard's worker has taken Distance further steps. */
  lemma AcceptedRuns(c: Setup, q: Queue, s: Step, p: nat, id: string, steps: seq<Step>)
    requires Inv(c, q) && Enabled(c, q, s) && OneProducer(q, p) && ByProducer(s, p)
    requires Returns(c, q, s) == Some((id, true)) && Legal(c, Do(c, q, s), steps)
    requires c.shardOf(id) < |Do(c, q, s).shards|
    requires WorkerSteps(steps, c.shardOf(id)) >= Distance(c, Do(c, q, s), id)
    ensures StartsIn(c, Do(c, q, s), steps, id)
  {
    hide Do;
    hide Inv;
    hide Owed;
    hide StartsIn;
    hide Returns;
    AcceptedIsOwed(c, q, s, p, id, true);
    StepKeeps(c, q, s);
    var q1 := Do(c, q, s);
    if !StartsIn(c, q1, steps, id) {
      OwedUntilStarted(c, q1, steps, id);
      OwedHere(c, After(c, q1, steps), id);
      DistancePositive(c, After(c, q1, steps), id);
    }
  }

  lemma {:induction false} OneProducerOverRun(c: Setup, q: Queue, steps: seq<Step>, p: nat)
    requires Legal(c, q, steps) && OneProducer(q, p) && forall k :: 0 <= k < |steps| ==> ByProducer(steps[k], p)
    ensures OneProducer(After(c, q, steps), p)
    decreases steps
  {
    hide Do;
    hide OneProducer;
    if steps != [] {
      OneProducerStays(c, q, steps[0], p);
      OneProducerOverRun(c, Do(c, q, steps[0]), steps[1..], p);
    }
  }

  /** From the start of the queue, over every interleaving of one event pump with all the
      workers: whenever Enqueue returns true for `id`, a run of `id` starts afterwards,
      before its worker has taken Distance further steps. */
  lemma EnqueuePromise(c: Setup, before: seq<Step>, s: Step, p: nat, id: string, later: seq<Step>)
    requires Sane(c) && Legal(c, NewQueue(c), before) && forall k :: 0 <= k < |before| ==> ByProducer(before[k], p)
    requires var q := After(c, NewQueue(c), before);
             && Enabled(c, q, s) && ByProducer(s, p) && Returns(c, q, s) == Some((id, true))
             && Legal(c, Do(c, q, s), later)
             && |Do(c, q, s).shards| == c.workers && WorkerSteps(later, c.shardOf(id)) >= Distance(c, Do(c, q, s), id)
    ensures StartsIn(c, Do(c, After(c, NewQueue(c), before), s), later, id)
  {
    hide Do;
    hide Enabled;
    hide Distance;
    hide Returns;
    hide Inv;
    InvStarts(c);
    QueueSafe(c, NewQueue(c), before);
    OneProducerOverRun(c, NewQueue(c), before, p);
    AcceptedRuns(c, After(c, NewQueue(c), before), s, p, id, later);
  }

  lemma DistancePositive(c: Setup, q: Queue, id: string)
    requires c.shardOf(id) < |q.shards|
    ensures Distance(c, q, id) >= 1
  {
  }

  /** With two producers the promise fails: on a full shard the second is told true on the
      strength of the first one's mark, which the first then takes back. */
  lemma TwoProducersLose(c: Setup, q: Queue, p: nat, r: nat, id: string)
    requires Inv(c, q) && p !in q.calls && r !in q.calls && p != r && c.shardOf(id) < |q.shards|
    requires |q.shards[c.shardOf(id)].ch| == c.buffer && id !in q.shards[c.shardOf(id)].pending
    ensures var steps := [Mark(p, id), Mark(r, id), Send(p), Unmark(p)];
            && Legal(c, q, steps)
            && Returns(c, Do(c, q, steps[0]), steps[1]) == Some((id, true))
            && After(c, q, steps) == q && !Owed(c, q, id) && !StartsIn(c, q, steps, id)
  {
    var i := c.shardOf(id);
    var s1, s2, s3, s4 := Mark(p, id), Mark(r, id), Send(p), Unmark(p);
    var steps := [s1, s2, s3, s4];
    assert ShardInv(c, q.calls, q.shards[i], i);
    var q1 := Do(c, q, s1);
    assert Do(c, q1, s2) == q1;
    var q3 := Do(c, q1, s3);
    assert q3 == q1.(calls := q.calls[p := Refused(id)]);
    var q4 := Do(c, q3, s4);
    assert q4 == q;
    assert steps[1..] == [s2, s3, s4] && steps[1..][1..] == [s3, s4] && [s3, s4][1..] == [s4] && [s4][1..] == [];
    assert Legal(c, q4, []) && Legal(c, q3, [s4]) && Legal(c, q1, [s3, s4]) && Legal(c, q1, [s2, s3, s4]);
    assert After(c, q4, []) == q && After(c, q3, [s4]) == q && After(c, q1, [s3, s4]) == q && After(c, q1, [s2, s3, s4]) == q;
    assert !StartsIn(c, q3, [s4], id) && !StartsIn(c, q1, [s3, s4], id);
  }

  // ---------- the queue as it is kept in memory ----------

  class WorkQueue {
    const setup: Setup
    var shards: seq<Shard>
    var calls: map<nat, Call>

    ghost predicate Valid()
      reads this
    {
      Sane(setup) && Inv(setup, View())
    }

    function View(): Queue
      reads this
    {
      Queue(shards, calls)
    }

    /** NewQueue: at least one worker, and a buffer of 64 unless one is asked for. */
    constructor (workers: int, buffer: int, hash: string -> nat)
      ensures Valid() && View() == NewQueue(setup)
      ensures setup.workers == (if workers < 1 then 1 else workers)
      ensures setup.buffer == (if buffer < 1 then 64 else buffer)
      ensures forall id :: setup.shardOf(id) == hash(id) % setup.workers
    {
      var stride: nat := if workers < 1 then 1 else workers;
      var size: nat := if buffer < 1 then 64 else buffer;
      setup := Setup(size, stride, id => hash(id) % stride);
      shards := seq(stride, _ => Shard({}, [], Idle));
      calls := map[];
      new;
      InvStarts(setup);
    }

    /** Enqueue with no other thread in between. Accepted means owed, refused means nothing
        changed; every other shard is untouched either way. */
    method Enqueue(producer: nat, id: string) returns (ok: bool)
      requires Valid() && producer !in calls
      modifies this
      ensures Valid() && calls == old(calls)
      ensures ok <==> id in old(shards)[setup.shardOf(id)].pending || |old(shards)[setup.shardOf(id)].ch| < setup.buffer
      ensures !ok || id in old(shards)[setup.shardOf(id)].pending ==> View() == old(View())
      ensures id !in old(shards)[setup.shardOf(id)].pending && ok ==>
                var sh := old(shards)[setup.shardOf(id)];
                shards == old(shards)[setup.shardOf(id) := sh.(pending := sh.pending + {id}, ch := sh.ch + [id])]
    {
      ghost var q := View();
      var i := setup.shardOf(id);
      assert |shards| == setup.workers;
      hide Inv;
      if id in shards[i].pending {
        return true;
      }
      shards := shards[i := shards[i].(pending := shards[i].pending + {id})];
      calls := calls[producer := Marked(id)];
      StepKeeps(setup, q, Mark(producer, id));
      ghost var q1 := View();
      assert q1 == Do(setup, q, Mark(producer, id));
      if |shards[i].ch| < setup.buffer {
        shards := shards[i := shards[i].(ch := shards[i].ch + [id])];
        calls := calls - {producer};
        StepKeeps(setup, q1, Send(producer));
        assert View() == Do(setup, q1, Send(producer));
        return true;
      }
      calls := calls[producer := Refused(id)];
      StepKeeps(setup, q1, Send(producer));
      ghost var q2 := View();
      assert q2 == Do(setup, q1, Send(producer));
      shards := shards[i := shards[i].(pending := shards[i].pending - {id})];
      calls := calls - {producer};
      StepKeeps(setup, q2, Unmark(producer));
      assert View() == Do(setup, q2, Unmark(producer));
      assert shards[i].pending == q.shards[i].pending;
      return false;
    }

    /** One turn of a worker's loop up to the call of `fn`: the ID it is about to run is no
        longer pending, so an event during the run is not swallowed. */
    method Take(i: nat) returns (id: string)
      requires Valid() && i < |shards| && shards[i].worker.Idle? && shards[i].ch != []
      modifies this
      ensures Valid() && calls == old(calls) && id == old(shards)[i].ch[0]
      ensures shards == old(shards)[i := Shard(old(shards)[i].pending - {id}, old(shards)[i].ch[1..], Running(id))]
      ensures id !in shards[i].pending && id !in shards[i].ch
    {
      ghost var q := View();
      id := shards[i].ch[0];
      shards := shards[i := shards[i].(ch := shards[i].ch[1..], worker := Received(id))];
      StepKeeps(setup, q, Receive(i));
      ghost var q1 := View();
      assert q1 == Do(setup, q, Receive(i));
      shards := shards[i := shards[i].(pending := shards[i].pending - {id}, worker := Running(id))];
      StepKeeps(setup, q1, Start(i));
      assert View() == Do(setup, q1, Start(i));
      assert ShardInv(setup, calls, shards[i], i);
    }
  }
}
