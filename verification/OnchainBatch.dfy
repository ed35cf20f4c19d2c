/** The concurrent batch read (core/backend/onchain.go): at most eight goroutines at a time, a channel with room
    for every result, a wait group, and a collector that drains the closed channel. `answers[i]` is what the read
    of goroutine i returns, whatever the chain does meanwhile; the channel is the list of the senders. */
module OnchainBatch {
  import opened Prelude
  import opened Records
  import opened Onchain
  import opened Tally

  const THROTTLE: nat := 8

  type Answer = Result<AgentInfo, BackendError>

  datatype Worker = Absent | Calling | Sending | Releasing | Leaving | Gone

  datatype Collector = Adding(k: nat) | Acquiring(k: nat) | Launching(k: nat) | Waiting | Closing | Draining | Returned

  datatype Reader = Reader(
    workers: seq<Worker>, collector: Collector, wg: nat, sem: nat,
    chan: seq<nat>, closed: bool, drained: seq<nat>, out: map<string, AgentInfo>)

  function Begin(n: nat): Reader {
    Reader(seq(n, _ => Absent), Adding(0), 0, 0, [], false, [], map[])
  }

  // ---------------------------------------------------------------------
  // Atomic actions
  // ---------------------------------------------------------------------

  datatype Turn = CollectorTurn | WorkerTurn(i: nat)

  /** Which actions do not block. The channel's capacity is the number of UUIDs. */
  predicate Enabled(r: Reader, t: Turn) {
    match t
    case CollectorTurn =>
      (match r.collector
       case Acquiring(_) => r.sem < THROTTLE
       case Waiting => r.wg == 0
       case Returned => false
       case _ => true)
    case WorkerTurn(i) =>
      i < |r.workers| &&
      (match r.workers[i]
       case Absent => false
       case Gone => false
       case Sending => |r.chan| < |r.workers|
       case Releasing => r.sem > 0
       case Leaving => r.wg > 0
       case Calling => true)
  }

  function Become(r: Reader, i: nat, w: Worker): Reader
    requires i < |r.workers|
  {
    r.(workers := r.workers[i := w])
  }

  function WorkerAct(r: Reader, i: nat): Reader
    requires Enabled(r, WorkerTurn(i))
  {
    match r.workers[i]
    case Calling => Become(r, i, Sending)
    case Sending => Become(r, i, Releasing).(chan := r.chan + [i])
    case Releasing => Become(r, i, Leaving).(sem := r.sem - 1)
    case Leaving => Become(r, i, Gone).(wg := r.wg - 1)
    case _ => r
  }

  function Collect(answers: seq<Answer>, i: nat, out: map<string, AgentInfo>): map<string, AgentInfo> {
    if i < |answers| && answers[i].Ok? then out[answers[i].value.uuid := answers[i].value] else out
  }

  function CollectorAct(answers: seq<Answer>, r: Reader): Reader {
    match r.collector
    case Adding(k) =>
      if k < |r.workers| then r.(wg := r.wg + 1, collector := Acquiring(k)) else r.(collector := Waiting)
    case Acquiring(k) => r.(sem := r.sem + 1, collector := Launching(k))
    case Launching(k) => if k < |r.workers| then Become(r, k, Calling).(collector := Adding(k + 1)) else r
    case Waiting => r.(collector := Closing)
    case Closing => r.(closed := true, collector := Draining)
    case Draining =>
      if |r.chan| == 0 then r.(collector := Returned)
      else r.(chan := r.chan[1..], drained := r.drained + [r.chan[0]], out := Collect(answers, r.chan[0], r.out))
    case Returned => r
  }

  function Act(answers: seq<Answer>, r: Reader, t: Turn): Reader
    requires Enabled(r, t)
  {
    if t.CollectorTurn? then CollectorAct(answers, r) else WorkerAct(r, t.i)
  }

  // ---------------------------------------------------------------------
  // The invariant
  // ---------------------------------------------------------------------

  function Running(w: Worker): nat { if w.Absent? || w.Gone? then 0 else 1 }
  function Holding(w: Worker): nat { if w.Absent? || w.Leaving? || w.Gone? then 0 else 1 }
  function InFlight(w: Worker): nat { if w.Calling? then 1 else 0 }
  function Sent(w: Worker): nat { if w.Releasing? || w.Leaving? || w.Gone? then 1 else 0 }

  function Added(s: Collector): nat { if s.Acquiring? || s.Launching? then 1 else 0 }
  function Holds(s: Collector): nat { if s.Launching? then 1 else 0 }
  predicate Joined(s: Collector) { s.Closing? || s.Draining? || s.Returned? }

  function Launched(s: Collector, n: nat): nat {
    if s.Adding? || s.Acquiring? || s.Launching? then s.k else n
  }

  ghost predicate CollectorOk(r: Reader) {
    var n := |r.workers|;
    && Launched(r.collector, n) <= n
    && (r.collector.Acquiring? || r.collector.Launching? ==> r.collector.k < n)
    && (forall i :: 0 <= i < n ==> (r.workers[i].Absent? <==> Launched(r.collector, n) <= i))
    && (Joined(r.collector) ==> r.wg == 0)
    && (r.closed <==> r.collector.Draining? || r.collector.Returned?)
    && (!r.closed ==> r.drained == [])
    && (r.collector.Returned? ==> r.chan == [])
  }

  ghost predicate WaitGroupOk(r: Reader) { r.wg == Sum(r.workers, Running) + Added(r.collector) }

  ghost predicate ThrottleOk(r: Reader) { r.sem == Sum(r.workers, Holding) + Holds(r.collector) <= THROTTLE }

  /** The channel and what was drained from it hold each sender once. */
  ghost predicate ChannelOk(r: Reader) {
    && |r.chan| + |r.drained| == Sum(r.workers, Sent)
    && (forall i: nat :: i in r.chan + r.drained <==> i < |r.workers| && Sent(r.workers[i]) == 1)
  }

  ghost function CollectAll(answers: seq<Answer>, senders: seq<nat>): map<string, AgentInfo> {
    if |senders| == 0 then map[]
    else Collect(answers, senders[|senders| - 1], CollectAll(answers, senders[..|senders| - 1]))
  }

  ghost predicate Inv(answers: seq<Answer>, r: Reader) {
    && |r.workers| == |answers|
    && CollectorOk(r) && WaitGroupOk(r) && ThrottleOk(r) && ChannelOk(r)
    && r.out == CollectAll(answers, r.drained)
  }

  lemma BeginOk(answers: seq<Answer>)
    ensures Inv(answers, Begin(|answers|))
  {
    var w := Begin(|answers|).workers;
    SumConstant(w, Running, 0);
    SumConstant(w, Holding, 0);
    SumConstant(w, Sent, 0);
  }

  /** When the wait group is down to zero after the spawn loop, every goroutine has gone. */
  lemma JoinedAllGone(r: Reader)
    requires CollectorOk(r) && WaitGroupOk(r) && (Joined(r.collector) || (r.collector.Waiting? && r.wg == 0))
    ensures forall w :: w in r.workers ==> w.Gone?
  {
    forall i | 0 <= i < |r.workers| ensures r.workers[i].Gone? {
      assert !r.workers[i].Absent?;
      SumCovers(r.workers, Running, i);
    }
  }

  lemma LaunchKeepsInv(answers: seq<Answer>, r: Reader)
    requires Inv(answers, r) && r.collector.Launching?
    ensures Inv(answers, CollectorAct(answers, r))
  {
    var k := r.collector.k;
    SumUpdate(r.workers, Running, k, Calling);
    SumUpdate(r.workers, Holding, k, Calling);
    SumUpdate(r.workers, Sent, k, Calling);
  }

  /** Moving the head of the channel to what was drained keeps their members. */
  lemma DrainKeepsMembers(chan: seq<nat>, drained: seq<nat>, i: nat)
    requires |chan| > 0
    ensures i in chan[1..] + (drained + [chan[0]]) <==> i in chan + drained
  {
    assert chan == [chan[0]] + chan[1..];
  }

  lemma DrainKeepsInv(answers: seq<Answer>, r: Reader)
    requires Inv(answers, r) && r.collector.Draining?
    ensures Inv(answers, CollectorAct(answers, r))
  {
    hide Sum;
    if |r.chan| > 0 {
      var r' := CollectorAct(answers, r);
      assert r'.drained[..|r'.drained| - 1] == r.drained;
      forall i: nat ensures i in r'.chan + r'.drained <==> i in r.chan + r.drained {
        DrainKeepsMembers(r.chan, r.drained, i);
      }
    }
  }

  lemma CollectorActKeepsInv(answers: seq<Answer>, r: Reader)
    requires Inv(answers, r) && Enabled(r, CollectorTurn)
    ensures Inv(answers, CollectorAct(answers, r))
  {
    match r.collector
    case Launching(_) => LaunchKeepsInv(answers, r);
    case Draining => DrainKeepsInv(answers, r);
    case _ =>
  }

  lemma WorkerActKeepsCollector(r: Reader, i: nat)
    requires CollectorOk(r) && WaitGroupOk(r) && Enabled(r, WorkerTurn(i))
    ensures CollectorOk(WorkerAct(r, i))
  {
    SumCovers(r.workers, Running, i);
  }

  lemma WorkerActKeepsWaitGroup(r: Reader, i: nat)
    requires WaitGroupOk(r) && Enabled(r, WorkerTurn(i))
    ensures WaitGroupOk(WorkerAct(r, i))
  {
    var w := WorkerAct(r, i).workers[i];
    SumUpdate(r.workers, Running, i, w);
    assert WorkerAct(r, i).workers == r.workers[i := w];
  }

  lemma WorkerActKeepsThrottle(r: Reader, i: nat)
    requires ThrottleOk(r) && Enabled(r, WorkerTurn(i))
    ensures ThrottleOk(WorkerAct(r, i))
  {
    var w := WorkerAct(r, i).workers[i];
    SumUpdate(r.workers, Holding, i, w);
    assert WorkerAct(r, i).workers == r.workers[i := w];
  }

  lemma WorkerActKeepsChannel(r: Reader, i: nat)
    requires ChannelOk(r) && Enabled(r, WorkerTurn(i))
    ensures ChannelOk(WorkerAct(r, i))
  {
    var r' := WorkerAct(r, i);
    var w := r'.workers[i];
    SumUpdate(r.workers, Sent, i, w);
    assert r'.workers == r.workers[i := w];
    assert forall j: nat :: j in r'.chan + r'.drained <==> j in r.chan + r.drained || (r.workers[i].Sending? && j == i);
  }

  lemma ActKeepsInv(answers: seq<Answer>, r: Reader, t: Turn)
    requires Inv(answers, r) && Enabled(r, t)
    ensures Inv(answers, Act(answers, r, t))
  {
    if t.CollectorTurn? {
      CollectorActKeepsInv(answers, r);
    } else {
      WorkerActKeepsCollector(r, t.i);
      WorkerActKeepsWaitGroup(r, t.i);
      WorkerActKeepsThrottle(r, t.i);
      WorkerActKeepsChannel(r, t.i);
    }
  }

  // ---------------------------------------------------------------------
  // Safety, progress, termination
  // ---------------------------------------------------------------------

  lemma ConcurrencyBounded(r: Reader)
    requires ThrottleOk(r)
    ensures Sum(r.workers, InFlight) <= THROTTLE
  {
    SumAtMost(r.workers, InFlight, Holding);
  }

  /** A goroutine that is about to send finds room, and the channel open. */
  lemma SendNeverBlocksOrPanics(answers: seq<Answer>, r: Reader, i: nat)
    requires Inv(answers, r) && i < |r.workers| && r.workers[i].Sending?
    ensures Enabled(r, WorkerTurn(i)) && !r.closed
  {
    SumLeavesRoom(r.workers, Sent, i);
    SumCovers(r.workers, Running, i);
  }

  lemma NeverStuck(answers: seq<Answer>, r: Reader) returns (t: Turn)
    requires Inv(answers, r) && !r.collector.Returned?
    ensures Enabled(r, t)
  {
    if Enabled(r, CollectorTurn) {
      t := CollectorTurn;
    } else {
      var i;
      if r.collector.Waiting? {
        i := SumWitness(r.workers, Running);
      } else {
        i := SumWitness(r.workers, Holding);
      }
      SumCovers(r.workers, Running, i);
      SumCovers(r.workers, Holding, i);
      if r.workers[i].Sending? { SendNeverBlocksOrPanics(answers, r, i); }
      t := WorkerTurn(i);
    }
  }

  function WorkerLeft(w: Worker): nat {
    match w
    case Absent => 4
    case Calling => 4
    case Sending => 3
    case Releasing => 2
    case Leaving => 1
    case Gone => 0
  }

  function CollectorLeft(r: Reader): int {
    var n := |r.workers|;
    match r.collector
    case Adding(k) => 3 * (n - k) + n + 4
    case Acquiring(k) => 3 * (n - k) + n + 3
    case Launching(k) => 3 * (n - k) + n + 2
    case Waiting => n + 3
    case Closing => n + 2
    case Draining => |r.chan| + 1
    case Returned => 0
  }

  function Measure(r: Reader): int { Sum(r.workers, WorkerLeft) + CollectorLeft(r) }

  lemma MeasureNonnegative(r: Reader)
    requires CollectorOk(r)
    ensures Measure(r) >= 0
  {
  }

  lemma WorkerActionCounts(r: Reader, i: nat)
    requires CollectorOk(r) && WaitGroupOk(r) && Enabled(r, WorkerTurn(i))
    ensures Measure(WorkerAct(r, i)) == Measure(r) - 1
  {
    var w := WorkerAct(r, i).workers[i];
    SumUpdate(r.workers, WorkerLeft, i, w);
    assert WorkerAct(r, i).workers == r.workers[i := w];
    SumCovers(r.workers, Running, i);
    assert !r.collector.Draining?;
  }

  lemma CollectorActionCounts(answers: seq<Answer>, r: Reader)
    requires CollectorOk(r) && WaitGroupOk(r) && ChannelOk(r) && Enabled(r, CollectorTurn)
    ensures Measure(CollectorAct(answers, r)) == Measure(r) - 1
  {
    if r.collector.Launching? {
      SumUpdate(r.workers, WorkerLeft, r.collector.k, Calling);
    } else if r.collector.Closing? {
      JoinedAllGone(r);
      SumConstant(r.workers, Sent, 1);
    }
  }

  lemma EveryActionCounts(answers: seq<Answer>, r: Reader, t: Turn)
    requires Inv(answers, r) && Enabled(r, t)
    ensures Measure(Act(answers, r, t)) == Measure(r) - 1
  {
    if t.WorkerTurn? {
      WorkerActionCounts(r, t.i);
    } else {
      CollectorActionCounts(answers, r);
    }
  }

  /** The map of a batch: one record for each UUID that some read returned, and such a record. */
  ghost predicate Gathers(answers: seq<Answer>, out: map<string, AgentInfo>) {
    && (forall i :: 0 <= i < |answers| && answers[i].Ok? ==> answers[i].value.uuid in out)
    && (forall u :: u in out ==> out[u].uuid == u && Ok(out[u]) in answers)
  }

  /** Collecting the results of senders in any order gathers their successes. */
  lemma {:induction false} CollectedAt(answers: seq<Answer>, senders: seq<nat>, u: string)
    ensures forall i :: i in senders && i < |answers| && answers[i].Ok? ==>
      answers[i].value.uuid in CollectAll(answers, senders)
    ensures u in CollectAll(answers, senders) ==>
      CollectAll(answers, senders)[u].uuid == u && Ok(CollectAll(answers, senders)[u]) in answers
  {
    if |senders| > 0 {
      var front, last := senders[..|senders| - 1], senders[|senders| - 1];
      CollectedAt(answers, front, u);
      assert forall i :: i in senders <==> i in front || i == last;
    }
  }

  lemma ReturnedGathers(answers: seq<Answer>, r: Reader)
    requires Inv(answers, r) && r.collector.Returned?
    ensures Gathers(answers, r.out)
  {
    JoinedAllGone(r);
    forall i: nat | i < |answers| && answers[i].Ok? ensures answers[i].value.uuid in r.out {
      assert i in r.chan + r.drained by { assert r.workers[i] in r.workers; }
      assert i in r.drained;
      CollectedAt(answers, r.drained, answers[i].value.uuid);
    }
    forall u | u in r.out ensures r.out[u].uuid == u && Ok(r.out[u]) in answers {
      CollectedAt(answers, r.drained, u);
    }
  }

  /** The answers of a quiet chain; the reads of the goroutines in `failing` meet an outage. */
  function Replies(c: Ledger, uuids: seq<string>, failing: set<nat>): seq<Answer> {
    seq(|uuids|, i requires 0 <= i < |uuids| => if i in failing then Err(ChainFailure) else ChainGet(c, uuids[i]))
  }

  /** What a batch read of a quiet chain gathers is the successes of the pointwise reads that were answered,
      duplicates included. */
  lemma ReturnedIsPointwise(c: Ledger, uuids: seq<string>, failing: set<nat>, out: map<string, AgentInfo>)
    requires forall v :: v in c ==> c[v].uuid == v
    requires Gathers(Replies(c, uuids, failing), out)
    ensures out == ChainBatch(c, Answered(uuids, failing))
  {
    var answers, some := Replies(c, uuids, failing), Answered(uuids, failing);
    forall u ensures u in out <==> u in ChainBatch(c, some)
             ensures u in out ==> out[u] == ChainBatch(c, some)[u]
    {
      AnsweredMembers(uuids, failing, u);
      if u in out {
        var i :| 0 <= i < |answers| && answers[i] == Ok(out[u]);
        assert uuids[i] == u && i !in failing;
      }
      if u in ChainBatch(c, some) {
        var i: nat :| i < |uuids| && i !in failing && uuids[i] == u;
        assert answers[i] == ChainGet(c, u);
      }
    }
  }

  // ---------------------------------------------------------------------
  // Whole schedules
  // ---------------------------------------------------------------------

  ghost predicate Schedule(answers: seq<Answer>, r: Reader, turns: seq<Turn>)
    decreases |turns|
  {
    |turns| > 0 ==> Enabled(r, turns[0]) && Schedule(answers, Act(answers, r, turns[0]), turns[1..])
  }

  ghost function After(answers: seq<Answer>, r: Reader, turns: seq<Turn>): Reader
    requires Schedule(answers, r, turns)
    decreases |turns|
  {
    if |turns| == 0 then r else After(answers, Act(answers, r, turns[0]), turns[1..])
  }

  lemma {:induction false} ScheduleKeepsInv(answers: seq<Answer>, r: Reader, turns: seq<Turn>)
    requires Inv(answers, r) && Schedule(answers, r, turns)
    ensures Inv(answers, After(answers, r, turns))
    ensures Measure(After(answers, r, turns)) == Measure(r) - |turns|
    decreases |turns|
  {
    if |turns| > 0 {
      ActKeepsInv(answers, r, turns[0]);
      EveryActionCounts(answers, r, turns[0]);
      ScheduleKeepsInv(answers, Act(answers, r, turns[0]), turns[1..]);
    }
  }

  /** Every interleaving of a batch read of n UUIDs, whatever each read returns: at most eight reads in flight; a
      sender never blocks and the channel is open to it; stuck only when the call has returned, after exactly
      8n + 4 actions; and the returned map gathers the successes. */
  lemma EveryInterleaving(answers: seq<Answer>, turns: seq<Turn>)
    requires Schedule(answers, Begin(|answers|), turns)
    ensures var r := After(answers, Begin(|answers|), turns);
      && Sum(r.workers, InFlight) <= 8
      && (forall i :: 0 <= i < |r.workers| && r.workers[i].Sending? ==> |r.chan| < |answers| && !r.closed)
      && |turns| <= 8 * |answers| + 4
      && (r.collector.Returned? ==> |turns| == 8 * |answers| + 4 && Gathers(answers, r.out))
      && (!r.collector.Returned? ==> exists t :: Enabled(r, t))
  {
    BeginOk(answers);
    SumConstant(Begin(|answers|).workers, WorkerLeft, 4);
    ScheduleKeepsInv(answers, Begin(|answers|), turns);
    var r := After(answers, Begin(|answers|), turns);
    ConcurrencyBounded(r);
    MeasureNonnegative(r);
    forall i: nat | i < |r.workers| && r.workers[i].Sending? ensures |r.chan| < |answers| && !r.closed {
      SendNeverBlocksOrPanics(answers, r, i);
    }
    if r.collector.Returned? {
      ReturnedGathers(answers, r);
      JoinedAllGone(r);
      SumConstant(r.workers, WorkerLeft, 0);
    } else {
      var t := NeverStuck(answers, r);
    }
  }

  lemma {:induction false} ScheduleAppend(answers: seq<Answer>, r: Reader, turns: seq<Turn>, t: Turn)
    requires Schedule(answers, r, turns) && Enabled(After(answers, r, turns), t)
    ensures Schedule(answers, r, turns + [t])
    ensures After(answers, r, turns + [t]) == Act(answers, After(answers, r, turns), t)
    decreases |turns|
  {
    if |turns| == 0 {
      assert turns + [t] == [t];
    } else {
      ScheduleAppend(answers, Act(answers, r, turns[0]), turns[1..], t);
      assert (turns + [t])[1..] == turns[1..] + [t];
    }
  }

  /** The collector launches k reads, and none of them gets on. */
  lemma {:induction false} LaunchOnly(answers: seq<Answer>, k: nat) returns (turns: seq<Turn>)
    requires k <= |answers| && k <= THROTTLE
    ensures Schedule(answers, Begin(|answers|), turns)
    ensures After(answers, Begin(|answers|), turns) ==
            Reader(seq(|answers|, i => if i < k then Calling else Absent), Adding(k), k, k, [], false, [], map[])
  {
    var start := Begin(|answers|);
    if k == 0 {
      turns := [];
      assert start.workers == seq(|answers|, i => if i < k then Calling else Absent);
    } else {
      var before := LaunchOnly(answers, k - 1);
      var r := After(answers, start, before);
      ScheduleAppend(answers, start, before, CollectorTurn);
      ScheduleAppend(answers, start, before + [CollectorTurn], CollectorTurn);
      ScheduleAppend(answers, start, before + [CollectorTurn] + [CollectorTurn], CollectorTurn);
      turns := before + [CollectorTurn] + [CollectorTurn] + [CollectorTurn];
      assert r.workers[k - 1 := Calling] == seq(|answers|, i => if i < k then Calling else Absent);
    }
  }

  lemma {:induction false} LaunchedInFlight(n: nat, k: nat)
    requires k <= n
    ensures Sum(seq(n, i => if i < k then Calling else Absent), InFlight) == k
  {
    var w := seq(n, i => if i < k then Calling else Absent);
    if n > 0 {
      var m := if k < n then k else n - 1;
      LaunchedInFlight(n - 1, m);
      assert w[..n - 1] == seq(n - 1, i => if i < m then Calling else Absent);
    }
  }

  /** How many reads can be in flight at once: any number up to the batch's size and eight. */
  lemma InFlightExactly(answers: seq<Answer>, k: nat)
    ensures (exists turns :: Schedule(answers, Begin(|answers|), turns)
               && Sum(After(answers, Begin(|answers|), turns).workers, InFlight) == k) <==>
            k <= |answers| && k <= 8
  {
    forall turns | Schedule(answers, Begin(|answers|), turns)
      ensures Sum(After(answers, Begin(|answers|), turns).workers, InFlight) <= 8
      ensures Sum(After(answers, Begin(|answers|), turns).workers, InFlight) <= |answers|
    {
      EveryInterleaving(answers, turns);
      SumAtMostLength(After(answers, Begin(|answers|), turns).workers, InFlight);
      BeginOk(answers);
      ScheduleKeepsInv(answers, Begin(|answers|), turns);
    }
    if k <= |answers| && k <= 8 {
      var turns := LaunchOnly(answers, k);
      LaunchedInFlight(|answers|, k);
    }
  }

  /** On a quiet chain, with any of the reads failing, every interleaving returns the same map. */
  lemma QuietChainReturnsPointwise(c: Ledger, uuids: seq<string>, failing: set<nat>, turns: seq<Turn>)
    requires forall v :: v in c ==> c[v].uuid == v
    requires Schedule(Replies(c, uuids, failing), Begin(|uuids|), turns)
    requires After(Replies(c, uuids, failing), Begin(|uuids|), turns).collector.Returned?
    ensures After(Replies(c, uuids, failing), Begin(|uuids|), turns).out == ChainBatch(c, Answered(uuids, failing))
  {
    hide Schedule, After, Gathers;
    var answers := Replies(c, uuids, failing);
    EveryInterleaving(answers, turns);
    ReturnedIsPointwise(c, uuids, failing, After(answers, Begin(|uuids|), turns).out);
  }
}
