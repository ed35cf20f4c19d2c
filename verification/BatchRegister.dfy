/** HandleBatchRegister (internal/service/batch_register.go): a spawn loop throttled by a buffered channel, one
    goroutine per request, a mutex around the result lists and a wait group. Every interleaving of their atomic
    actions is a schedule. Appending to a shared list is two actions, a load and a store, so that results would
    be lost without the mutex. `outcome[i]` is what the i-th HandleRegister call returns. */
module BatchRegister {
  import opened Prelude
  import opened Tally

  datatype Response = Response(uuid: string)
  datatype RegisterError = RegisterError(text: string)

  /** A request; None is a nil pointer. */
  type Item = Option<string>

  datatype Success = Success(index: nat, response: Response)
  datatype Failure = Failure(index: nat, uuid: string, err: RegisterError)

  /** A goroutine, named by its next action. One that is about to store holds the list that it loaded, extended. */
  datatype Worker =
    | Absent | Calling | WantsLock | Locked
    | StoringSuccess(successes: seq<Success>) | StoringFailure(failures: seq<Failure>)
    | Appended | Releasing | Leaving | Gone

  /** The spawning goroutine, named by its next action. */
  datatype Spawner = Adding(k: nat) | Acquiring(k: nat) | Launching(k: nat) | Waiting | Returned

  datatype Pool = Pool(
    workers: seq<Worker>, spawner: Spawner, wg: nat, sem: nat, locked: bool,
    succeeded: seq<Success>, failed: seq<Failure>)

  /** The inputs of one batch: requests, what each call returns, and the channel's capacity. */
  datatype Batch = Batch(items: seq<Item>, outcome: seq<Result<Response, RegisterError>>, capacity: nat)

  ghost predicate Sensible(b: Batch) {
    |b.items| == |b.outcome| && b.capacity > 0
  }

  function Begin(b: Batch): Pool {
    Pool(seq(|b.items|, _ => Absent), Adding(0), 0, 0, false, [], [])
  }

  // ---------------------------------------------------------------------
  // Atomic actions
  // ---------------------------------------------------------------------

  datatype Turn = SpawnerTurn | WorkerTurn(i: nat)

  /** Which actions do not block. */
  predicate Enabled(b: Batch, p: Pool, t: Turn) {
    match t
    case SpawnerTurn =>
      (match p.spawner
       case Acquiring(_) => p.sem < b.capacity
       case Waiting => p.wg == 0
       case Returned => false
       case _ => true)
    case WorkerTurn(i) =>
      i < |p.workers| && i < |b.outcome| && i < |b.items| &&
      (match p.workers[i]
       case Absent => false
       case Gone => false
       case WantsLock => !p.locked
       case Releasing => p.sem > 0
       case Leaving => p.wg > 0
       case _ => true)
  }

  function UuidOf(item: Item): string { if item.Some? then item.value else "" }

  /** The load: the list that the goroutine will extend, as it is now, with its result appended. */
  function Load(b: Batch, p: Pool, i: nat): Worker
    requires i < |b.outcome| && i < |b.items|
  {
    match b.outcome[i]
    case Ok(r) => StoringSuccess(p.succeeded + [Success(i, r)])
    case Err(e) => StoringFailure(p.failed + [Failure(i, UuidOf(b.items[i]), e)])
  }

  function Become(p: Pool, i: nat, w: Worker): Pool
    requires i < |p.workers|
  {
    p.(workers := p.workers[i := w])
  }

  function SpawnerAct(p: Pool): Pool {
    match p.spawner
    case Adding(k) => if k < |p.workers| then p.(wg := p.wg + 1, spawner := Acquiring(k)) else p.(spawner := Waiting)
    case Acquiring(k) => p.(sem := p.sem + 1, spawner := Launching(k))
    case Launching(k) =>
      if k < |p.workers| then Become(p, k, Calling).(spawner := Adding(k + 1)) else p
    case Waiting => p.(spawner := Returned)
    case Returned => p
  }

  function WorkerAct(b: Batch, p: Pool, i: nat): Pool
    requires Enabled(b, p, WorkerTurn(i))
  {
    match p.workers[i]
    case Calling => Become(p, i, WantsLock)
    case WantsLock => Become(p, i, Locked).(locked := true)
    case Locked => Become(p, i, Load(b, p, i))
    case StoringSuccess(list) => Become(p, i, Appended).(succeeded := list)
    case StoringFailure(list) => Become(p, i, Appended).(failed := list)
    case Appended => Become(p, i, Releasing).(locked := false)
    case Releasing => Become(p, i, Leaving).(sem := p.sem - 1)
    case Leaving => Become(p, i, Gone).(wg := p.wg - 1)
    case _ => p
  }

  function Act(b: Batch, p: Pool, t: Turn): Pool
    requires Enabled(b, p, t)
  {
    if t.SpawnerTurn? then SpawnerAct(p) else WorkerAct(b, p, t.i)
  }

  // ---------------------------------------------------------------------
  // The invariant
  // ---------------------------------------------------------------------

  function Running(w: Worker): nat { if w.Absent? || w.Gone? then 0 else 1 }
  function Holding(w: Worker): nat { if w.Absent? || w.Leaving? || w.Gone? then 0 else 1 }
  function InLock(w: Worker): nat {
    if w.Locked? || w.StoringSuccess? || w.StoringFailure? || w.Appended? then 1 else 0
  }

  function InFlight(w: Worker): nat { if w.Calling? then 1 else 0 }
  function Published(w: Worker): nat { if w.Appended? || w.Releasing? || w.Leaving? || w.Gone? then 1 else 0 }

  function SpawnerAdded(s: Spawner): nat { if s.Acquiring? || s.Launching? then 1 else 0 }
  function SpawnerHolds(s: Spawner): nat { if s.Launching? then 1 else 0 }

  function Launched(s: Spawner, n: nat): nat {
    if s.Adding? || s.Acquiring? || s.Launching? then s.k else n
  }

  ghost predicate SpawnerOk(b: Batch, p: Pool) {
    var n := |p.workers|;
    && n == |b.items|
    && Launched(p.spawner, n) <= n
    && (p.spawner.Acquiring? || p.spawner.Launching? ==> p.spawner.k < n)
    && (forall i :: 0 <= i < n ==> (p.workers[i].Absent? <==> Launched(p.spawner, n) <= i))
  }

  /** The wait group counts the calls that have not said Done, and the one being added. */
  ghost predicate WaitGroupOk(p: Pool) {
    && p.wg == Sum(p.workers, Running) + SpawnerAdded(p.spawner)
    && (p.spawner.Returned? ==> p.wg == 0)
  }

  /** The channel holds one token per call between its launch and its release. */
  ghost predicate ChannelOk(b: Batch, p: Pool) {
    p.sem == Sum(p.workers, Holding) + SpawnerHolds(p.spawner) <= b.capacity
  }

  ghost predicate LockOk(p: Pool) {
    Sum(p.workers, InLock) == if p.locked then 1 else 0
  }

  /** Each listed success is that of a published call, with what it returned, and listed once. */
  ghost predicate SuccessesOk(b: Batch, workers: seq<Worker>, list: seq<Success>) {
    && (forall x :: 0 <= x < |list| ==>
          && list[x].index < |workers| && list[x].index < |b.outcome|
          && Published(workers[list[x].index]) == 1 && b.outcome[list[x].index] == Ok(list[x].response))
    && (forall x, y :: 0 <= x < y < |list| ==> list[x].index != list[y].index)
  }

  ghost predicate FailuresOk(b: Batch, workers: seq<Worker>, list: seq<Failure>) {
    && (forall x :: 0 <= x < |list| ==>
          && list[x].index < |workers| && list[x].index < |b.outcome| && list[x].index < |b.items|
          && Published(workers[list[x].index]) == 1 && b.outcome[list[x].index] == Err(list[x].err)
          && list[x].uuid == UuidOf(b.items[list[x].index]))
    && (forall x, y :: 0 <= x < y < |list| ==> list[x].index != list[y].index)
  }

  ghost predicate ListsOk(b: Batch, p: Pool) {
    && |p.workers| == |b.outcome| == |b.items|
    && SuccessesOk(b, p.workers, p.succeeded)
    && FailuresOk(b, p.workers, p.failed)
    && |p.succeeded| + |p.failed| == Sum(p.workers, Published)
  }

  /** What a goroutine is about to store is the present list and its own result. */
  ghost predicate Current(b: Batch, s: seq<Success>, f: seq<Failure>, i: nat, w: Worker)
    requires i < |b.outcome| && i < |b.items|
  {
    && (w.StoringSuccess? ==> b.outcome[i].Ok? && w.successes == s + [Success(i, b.outcome[i].value)])
    && (w.StoringFailure? ==>
          b.outcome[i].Err? && w.failures == f + [Failure(i, UuidOf(b.items[i]), b.outcome[i].error)])
  }

  /** No load is out of date. */
  ghost predicate LoadsOk(b: Batch, p: Pool) {
    && |p.workers| == |b.outcome| == |b.items|
    && forall i :: 0 <= i < |p.workers| ==> Current(b, p.succeeded, p.failed, i, p.workers[i])
  }

  ghost predicate Inv(b: Batch, p: Pool) {
    SpawnerOk(b, p) && WaitGroupOk(p) && ChannelOk(b, p) && LockOk(p) && LoadsOk(b, p) && ListsOk(b, p)
  }

  lemma BeginOk(b: Batch)
    requires Sensible(b)
    ensures Inv(b, Begin(b))
  {
    var w := Begin(b).workers;
    SumConstant(w, Running, 0);
    SumConstant(w, Holding, 0);
    SumConstant(w, InLock, 0);
    SumConstant(w, Published, 0);
  }

  lemma CountsUpdate(s: seq<Worker>, i: nat, w: Worker)
    requires i < |s|
    ensures Sum(s[i := w], Running) + Running(s[i]) == Sum(s, Running) + Running(w)
    ensures Sum(s[i := w], Holding) + Holding(s[i]) == Sum(s, Holding) + Holding(w)
    ensures Sum(s[i := w], InLock) + InLock(s[i]) == Sum(s, InLock) + InLock(w)
    ensures Sum(s[i := w], Published) + Published(s[i]) == Sum(s, Published) + Published(w)
  {
    SumUpdate(s, Running, i, w);
    SumUpdate(s, Holding, i, w);
    SumUpdate(s, InLock, i, w);
    SumUpdate(s, Published, i, w);
  }

  lemma SpawnerActKeepsCounts(b: Batch, p: Pool)
    requires Inv(b, p) && Enabled(b, p, SpawnerTurn)
    ensures var p' := SpawnerAct(p); SpawnerOk(b, p') && WaitGroupOk(p') && ChannelOk(b, p') && LockOk(p')
  {
    hide LoadsOk, ListsOk;
    if p.spawner.Launching? {
      CountsUpdate(p.workers, p.spawner.k, Calling);
    }
  }

  lemma SpawnerActKeepsLists(b: Batch, p: Pool)
    requires Inv(b, p) && Enabled(b, p, SpawnerTurn)
    ensures LoadsOk(b, SpawnerAct(p)) && ListsOk(b, SpawnerAct(p))
  {
    if p.spawner.Launching? {
      CountsUpdate(p.workers, p.spawner.k, Calling);
      BecomeKeepsLists(b, p.workers, p.spawner.k, Calling, p.succeeded, p.failed);
    }
  }

  lemma SpawnerActKeepsInv(b: Batch, p: Pool)
    requires Sensible(b) && Inv(b, p) && Enabled(b, p, SpawnerTurn)
    ensures Inv(b, SpawnerAct(p))
  {
    SpawnerActKeepsCounts(b, p);
    SpawnerActKeepsLists(b, p);
  }

  lemma WorkerActKeepsWaitGroup(b: Batch, p: Pool, i: nat)
    requires WaitGroupOk(p) && Enabled(b, p, WorkerTurn(i))
    ensures WaitGroupOk(WorkerAct(b, p, i))
  {
    var w := WorkerAct(b, p, i).workers[i];
    SumUpdate(p.workers, Running, i, w);
    assert WorkerAct(b, p, i).workers == p.workers[i := w];
    SumCovers(p.workers, Running, i);
  }

  lemma WorkerActKeepsChannel(b: Batch, p: Pool, i: nat)
    requires ChannelOk(b, p) && Enabled(b, p, WorkerTurn(i))
    ensures ChannelOk(b, WorkerAct(b, p, i))
  {
    var w := WorkerAct(b, p, i).workers[i];
    SumUpdate(p.workers, Holding, i, w);
    assert WorkerAct(b, p, i).workers == p.workers[i := w];
  }

  lemma WorkerActKeepsLock(b: Batch, p: Pool, i: nat)
    requires LockOk(p) && Enabled(b, p, WorkerTurn(i))
    ensures LockOk(WorkerAct(b, p, i))
  {
    var w := WorkerAct(b, p, i).workers[i];
    SumUpdate(p.workers, InLock, i, w);
    assert WorkerAct(b, p, i).workers == p.workers[i := w];
    SumCovers(p.workers, InLock, i);
  }

  lemma WorkerActKeepsSpawner(b: Batch, p: Pool, i: nat)
    requires SpawnerOk(b, p) && Enabled(b, p, WorkerTurn(i))
    ensures SpawnerOk(b, WorkerAct(b, p, i))
  {
  }

  /** The lists survive any change of a goroutine that does not unpublish it. */
  lemma BecomeKeepsLists(b: Batch, workers: seq<Worker>, i: nat, w: Worker, s: seq<Success>, f: seq<Failure>)
    requires i < |workers| && Published(workers[i]) <= Published(w)
    requires SuccessesOk(b, workers, s) && FailuresOk(b, workers, f)
    ensures SuccessesOk(b, workers[i := w], s) && FailuresOk(b, workers[i := w], f)
  {
  }

  lemma AddSuccess(b: Batch, workers: seq<Worker>, list: seq<Success>, i: nat, r: Response)
    requires SuccessesOk(b, workers, list) && i < |workers| && i < |b.outcome|
    requires Published(workers[i]) == 0 && b.outcome[i] == Ok(r)
    ensures SuccessesOk(b, workers[i := Appended], list + [Success(i, r)])
  {
    assert forall x :: 0 <= x < |list| ==> list[x].index != i;
  }

  lemma AddFailure(b: Batch, workers: seq<Worker>, list: seq<Failure>, i: nat, e: RegisterError)
    requires FailuresOk(b, workers, list) && i < |workers| && i < |b.outcome| && i < |b.items|
    requires Published(workers[i]) == 0 && b.outcome[i] == Err(e)
    ensures FailuresOk(b, workers[i := Appended], list + [Failure(i, UuidOf(b.items[i]), e)])
  {
    assert forall x :: 0 <= x < |list| ==> list[x].index != i;
  }

  /** While one goroutine is in the critical section no other is. */
  lemma OnlyOneInLock(p: Pool, i: nat, j: nat)
    requires LockOk(p) && i < |p.workers| && j < |p.workers| && i != j && InLock(p.workers[i]) == 1
    ensures InLock(p.workers[j]) == 0
  {
    SumCovers(p.workers, InLock, i);
  }

  /** A load is still current when it is stored: what the mutex is for. */
  lemma WorkerActKeepsLoads(b: Batch, p: Pool, i: nat)
    requires LockOk(p) && LoadsOk(b, p) && Enabled(b, p, WorkerTurn(i))
    ensures LoadsOk(b, WorkerAct(b, p, i))
  {
    hide LockOk;
    var p' := WorkerAct(b, p, i);
    forall j | 0 <= j < |p'.workers| ensures Current(b, p'.succeeded, p'.failed, j, p'.workers[j]) {
      assert Current(b, p.succeeded, p.failed, j, p.workers[j]);
      if j != i && (p.workers[i].StoringSuccess? || p.workers[i].StoringFailure?) { OnlyOneInLock(p, i, j); }
    }
  }

  lemma WorkerActKeepsLists(b: Batch, p: Pool, i: nat)
    requires Sensible(b) && ListsOk(b, p) && LoadsOk(b, p) && Enabled(b, p, WorkerTurn(i))
    ensures ListsOk(b, WorkerAct(b, p, i))
  {
    var p' := WorkerAct(b, p, i);
    var w := p'.workers[i];
    SumUpdate(p.workers, Published, i, w);
    assert p'.workers == p.workers[i := w];
    assert Current(b, p.succeeded, p.failed, i, p.workers[i]);
    if p.workers[i].StoringSuccess? { AddSuccess(b, p.workers, p.succeeded, i, b.outcome[i].value); }
    if p.workers[i].StoringFailure? { AddFailure(b, p.workers, p.failed, i, b.outcome[i].error); }
    BecomeKeepsLists(b, p.workers, i, w, p.succeeded, p.failed);
  }

  lemma ActKeepsInv(b: Batch, p: Pool, t: Turn)
    requires Sensible(b) && Inv(b, p) && Enabled(b, p, t)
    ensures Inv(b, Act(b, p, t))
  {
    if t.SpawnerTurn? {
      SpawnerActKeepsInv(b, p);
    } else {
      WorkerActKeepsSpawner(b, p, t.i);
      WorkerActKeepsWaitGroup(b, p, t.i);
      WorkerActKeepsChannel(b, p, t.i);
      WorkerActKeepsLock(b, p, t.i);
      WorkerActKeepsLoads(b, p, t.i);
      WorkerActKeepsLists(b, p, t.i);
    }
  }

  // ---------------------------------------------------------------------
  // Safety, progress, termination
  // ---------------------------------------------------------------------

  /** Never more requests in flight than the channel holds. */
  lemma ConcurrencyBounded(b: Batch, p: Pool)
    requires Inv(b, p)
    ensures Sum(p.workers, InFlight) <= b.capacity
  {
    SumAtMost(p.workers, InFlight, Holding);
  }

  /** Until the spawner returns, somebody can move. */
  lemma NeverStuck(b: Batch, p: Pool) returns (t: Turn)
    requires Sensible(b) && Inv(b, p) && !p.spawner.Returned?
    ensures Enabled(b, p, t)
  {
    if Enabled(b, p, SpawnerTurn) {
      t := SpawnerTurn;
    } else if p.locked {
      var i := SumWitness(p.workers, InLock);
      t := WorkerTurn(i);
    } else if p.spawner.Waiting? {
      var i := SumWitness(p.workers, Running);
      SumCovers(p.workers, Running, i);
      SumCovers(p.workers, Holding, i);
      t := WorkerTurn(i);
    } else {
      var i := SumWitness(p.workers, Holding);
      SumCovers(p.workers, Running, i);
      SumCovers(p.workers, Holding, i);
      t := WorkerTurn(i);
    }
  }

  function WorkerLeft(w: Worker): nat {
    match w
    case Absent => 7
    case Calling => 7
    case WantsLock => 6
    case Locked => 5
    case StoringSuccess(_) => 4
    case StoringFailure(_) => 4
    case Appended => 3
    case Releasing => 2
    case Leaving => 1
    case Gone => 0
  }

  function SpawnerLeft(s: Spawner, n: nat): int {
    match s
    case Adding(k) => 3 * (n - k) + 2
    case Acquiring(k) => 3 * (n - k) + 1
    case Launching(k) => 3 * (n - k)
    case Waiting => 1
    case Returned => 0
  }

  /** The actions left. */
  function Measure(p: Pool): int { Sum(p.workers, WorkerLeft) + SpawnerLeft(p.spawner, |p.workers|) }

  lemma MeasureNonnegative(b: Batch, p: Pool)
    requires SpawnerOk(b, p)
    ensures Measure(p) >= 0
  {
  }

  lemma WorkerActionCounts(b: Batch, p: Pool, i: nat)
    requires Enabled(b, p, WorkerTurn(i))
    ensures Measure(WorkerAct(b, p, i)) == Measure(p) - 1
  {
    var p' := WorkerAct(b, p, i);
    SumUpdate(p.workers, WorkerLeft, i, p'.workers[i]);
    assert p'.workers == p.workers[i := p'.workers[i]] && p'.spawner == p.spawner;
    assert WorkerLeft(p'.workers[i]) == WorkerLeft(p.workers[i]) - 1;
  }

  lemma SpawnerActionCounts(b: Batch, p: Pool)
    requires SpawnerOk(b, p) && Enabled(b, p, SpawnerTurn)
    ensures Measure(SpawnerAct(p)) == Measure(p) - 1
  {
    if p.spawner.Launching? {
      SumUpdate(p.workers, WorkerLeft, p.spawner.k, Calling);
    }
  }

  lemma EveryActionCounts(b: Batch, p: Pool, t: Turn)
    requires SpawnerOk(b, p) && Enabled(b, p, t)
    ensures Measure(Act(b, p, t)) == Measure(p) - 1
  {
    if t.WorkerTurn? {
      WorkerActionCounts(b, p, t.i);
    } else {
      SpawnerActionCounts(b, p);
    }
  }

  /** The batch is done: every request is accounted for exactly once, with what its call returned. */
  ghost predicate Complete(b: Batch, p: Pool) {
    && p.sem == 0 && p.wg == 0 && !p.locked
    && |p.succeeded| + |p.failed| == |b.items| == |b.outcome|
    && (forall x, y :: 0 <= x < y < |p.succeeded| ==> p.succeeded[x].index != p.succeeded[y].index)
    && (forall x, y :: 0 <= x < y < |p.failed| ==> p.failed[x].index != p.failed[y].index)
    && (forall i: nat, r :: Success(i, r) in p.succeeded <==> i < |b.outcome| && b.outcome[i] == Ok(r))
    && (forall i: nat, u, e :: Failure(i, u, e) in p.failed <==>
          i < |b.outcome| && b.outcome[i] == Err(e) && u == UuidOf(b.items[i]))
  }

  function SuccessIndices(s: seq<Success>): seq<nat> { seq(|s|, k requires 0 <= k < |s| => s[k].index) }

  function FailureIndices(s: seq<Failure>): seq<nat> { seq(|s|, k requires 0 <= k < |s| => s[k].index) }

  ghost function Members(list: seq<nat>): set<nat> { set i | i in list }

  /** The indices that are listed, as a set to count. */
  ghost function Indices(s: seq<Success>, f: seq<Failure>): set<nat> {
    Members(SuccessIndices(s)) + Members(FailureIndices(f))
  }

  lemma {:induction false} DistinctMembers(list: seq<nat>)
    requires forall x, y :: 0 <= x < y < |list| ==> list[x] != list[y]
    ensures |Members(list)| == |list|
  {
    if |list| == 0 {
      assert Members(list) == {};
    } else {
      var front, last := list[..|list| - 1], list[|list| - 1];
      DistinctMembers(front);
      assert forall i :: i in list <==> i in front || i == last;
      assert Members(list) == Members(front) + {last};
    }
  }

  ghost function Range(n: nat): set<nat> {
    if n == 0 then {} else Range(n - 1) + {n - 1}
  }

  lemma {:induction false} RangeSize(n: nat)
    ensures |Range(n)| == n
    ensures forall i: nat :: i in Range(n) <==> i < n
  {
    if n > 0 { RangeSize(n - 1); }
  }

  lemma {:induction false} FullSubset(a: set<nat>, b: set<nat>)
    requires a <= b && |a| >= |b|
    ensures a == b
  {
    assert b == a + (b - a);
    assert |b| == |a| + |b - a|;
  }

  lemma SuccessMembers(b: Batch, workers: seq<Worker>, list: seq<Success>, i: nat)
    requires SuccessesOk(b, workers, list) && i in Members(SuccessIndices(list))
    ensures i < |workers| && i < |b.outcome| && b.outcome[i].Ok?
  {
    var x :| 0 <= x < |list| && SuccessIndices(list)[x] == i;
    assert list[x].index == i;
  }

  lemma FailureMembers(b: Batch, workers: seq<Worker>, list: seq<Failure>, i: nat)
    requires FailuresOk(b, workers, list) && i in Members(FailureIndices(list))
    ensures i < |workers| && i < |b.outcome| && b.outcome[i].Err?
  {
    var x :| 0 <= x < |list| && FailureIndices(list)[x] == i;
    assert list[x].index == i;
  }

  /** All n indices are listed, because n distinct ones are. */
  lemma EveryIndexListed(b: Batch, p: Pool)
    requires ListsOk(b, p) && Sum(p.workers, Published) == |b.items|
    ensures Indices(p.succeeded, p.failed) == Range(|b.items|)
  {
    var s, f := Members(SuccessIndices(p.succeeded)), Members(FailureIndices(p.failed));
    DistinctMembers(SuccessIndices(p.succeeded));
    DistinctMembers(FailureIndices(p.failed));
    forall i | i in s ensures i < |b.items| && b.outcome[i].Ok? { SuccessMembers(b, p.workers, p.succeeded, i); }
    forall i | i in f ensures i < |b.items| && b.outcome[i].Err? { FailureMembers(b, p.workers, p.failed, i); }
    assert s * f == {};
    assert |s + f| == |s| + |f|;
    RangeSize(|b.items|);
    FullSubset(s + f, Range(|b.items|));
  }

  lemma AllGone(b: Batch, p: Pool)
    requires SpawnerOk(b, p) && WaitGroupOk(p) && p.spawner.Returned?
    ensures forall w :: w in p.workers ==> w.Gone?
  {
    forall i | 0 <= i < |p.workers| ensures p.workers[i].Gone? {
      assert !p.workers[i].Absent?;
      SumCovers(p.workers, Running, i);
    }
  }

  /** An index that is listed at all is listed with its outcome. */
  lemma OutcomeListed(b: Batch, p: Pool, i: nat)
    requires ListsOk(b, p) && i < |b.outcome| && i in Indices(p.succeeded, p.failed)
    ensures b.outcome[i].Ok? ==> Success(i, b.outcome[i].value) in p.succeeded
    ensures b.outcome[i].Err? ==> Failure(i, UuidOf(b.items[i]), b.outcome[i].error) in p.failed
  {
    if i in SuccessIndices(p.succeeded) {
      var x :| 0 <= x < |p.succeeded| && SuccessIndices(p.succeeded)[x] == i;
      assert p.succeeded[x] == Success(i, b.outcome[i].value);
    } else {
      var x :| 0 <= x < |p.failed| && FailureIndices(p.failed)[x] == i;
      assert p.failed[x] == Failure(i, UuidOf(b.items[i]), b.outcome[i].error);
    }
  }

  lemma ListsMatchOutcomes(b: Batch, p: Pool)
    requires ListsOk(b, p) && Indices(p.succeeded, p.failed) == Range(|b.items|)
    ensures forall i: nat, r :: Success(i, r) in p.succeeded <==> i < |b.outcome| && b.outcome[i] == Ok(r)
    ensures forall i: nat, u, e :: Failure(i, u, e) in p.failed <==>
              i < |b.outcome| && b.outcome[i] == Err(e) && u == UuidOf(b.items[i])
  {
    RangeSize(|b.items|);
    forall i: nat | i < |b.outcome|
      ensures b.outcome[i].Ok? ==> Success(i, b.outcome[i].value) in p.succeeded
      ensures b.outcome[i].Err? ==> Failure(i, UuidOf(b.items[i]), b.outcome[i].error) in p.failed
    {
      OutcomeListed(b, p, i);
    }
  }

  lemma ReturnedIsComplete(b: Batch, p: Pool)
    requires Sensible(b) && Inv(b, p) && p.spawner.Returned?
    ensures Complete(b, p)
  {
    AllGone(b, p);
    SumConstant(p.workers, Published, 1);
    SumConstant(p.workers, Holding, 0);
    SumConstant(p.workers, InLock, 0);
    EveryIndexListed(b, p);
    ListsMatchOutcomes(b, p);
  }

  // ---------------------------------------------------------------------
  // Whole schedules
  // ---------------------------------------------------------------------

  ghost predicate Schedule(b: Batch, p: Pool, turns: seq<Turn>)
    decreases |turns|
  {
    |turns| > 0 ==> Enabled(b, p, turns[0]) && Schedule(b, Act(b, p, turns[0]), turns[1..])
  }

  ghost function After(b: Batch, p: Pool, turns: seq<Turn>): Pool
    requires Schedule(b, p, turns)
    decreases |turns|
  {
    if |turns| == 0 then p else After(b, Act(b, p, turns[0]), turns[1..])
  }

  lemma {:induction false} ScheduleKeepsInv(b: Batch, p: Pool, turns: seq<Turn>)
    requires Sensible(b) && Inv(b, p) && Schedule(b, p, turns) && Measure(p) >= 0
    ensures Inv(b, After(b, p, turns))
    ensures 0 <= Measure(After(b, p, turns)) == Measure(p) - |turns|
    decreases |turns|
  {
    if |turns| > 0 {
      ActKeepsInv(b, p, turns[0]);
      EveryActionCounts(b, p, turns[0]);
      MeasureNonnegative(b, Act(b, p, turns[0]));
      ScheduleKeepsInv(b, Act(b, p, turns[0]), turns[1..]);
    }
  }

  /** Every interleaving of a batch of n: never more than `capacity` calls in flight; at most 10n + 2 actions; stuck
      only when the spawner has returned, which is after exactly 10n + 2 actions and with every request accounted
      for exactly once. */
  lemma EveryInterleaving(b: Batch, turns: seq<Turn>)
    requires Sensible(b) && Schedule(b, Begin(b), turns)
    ensures var p := After(b, Begin(b), turns);
      && Sum(p.workers, InFlight) <= b.capacity
      && |turns| <= 10 * |b.items| + 2
      && (p.spawner.Returned? <==> |turns| == 10 * |b.items| + 2)
      && (p.spawner.Returned? ==> Complete(b, p))
      && (!p.spawner.Returned? ==> exists t :: Enabled(b, p, t))
  {
    BeginOk(b);
    SumConstant(Begin(b).workers, WorkerLeft, 7);
    ScheduleKeepsInv(b, Begin(b), turns);
    var p := After(b, Begin(b), turns);
    ConcurrencyBounded(b, p);
    if p.spawner.Returned? {
      ReturnedIsComplete(b, p);
      AllGone(b, p);
      SumConstant(p.workers, WorkerLeft, 0);
    } else {
      var t := NeverStuck(b, p);
      EveryActionCounts(b, p, t);
      ActKeepsInv(b, p, t);
      MeasureNonnegative(b, Act(b, p, t));
    }
  }

  // ---------------------------------------------------------------------
  // The call
  // ---------------------------------------------------------------------

  /** Go ints: nothing keeps them from being negative. */
  datatype Config = Config(maxBatchSize: int, concurrency: int)

  /** NegativeChannel is the panic of making a channel of negative size. */
  datatype BatchError = EmptyBatch | BatchTooLarge | NegativeChannel

  datatype BatchResult = BatchResult(succeeded: seq<Success>, failed: seq<Failure>, total: nat)

  function WithDefaults(cfg: Config): Config {
    Config(if cfg.maxBatchSize == 0 then 100 else cfg.maxBatchSize,
           if cfg.concurrency == 0 then 8 else cfg.concurrency)
  }

  /** What an accepted call works on: the channel has the configured capacity. */
  function BatchOf(items: seq<Item>, outcome: seq<Result<Response, RegisterError>>, cfg: Config): Batch
    requires WithDefaults(cfg).concurrency >= 0
  {
    Batch(items, outcome, WithDefaults(cfg).concurrency)
  }

  lemma {:induction false} ScheduleAppend(b: Batch, p: Pool, turns: seq<Turn>, t: Turn)
    requires Schedule(b, p, turns) && Enabled(b, After(b, p, turns), t)
    ensures Schedule(b, p, turns + [t])
    ensures After(b, p, turns + [t]) == Act(b, After(b, p, turns), t)
    decreases |turns|
  {
    if |turns| == 0 {
      assert turns + [t] == [t];
    } else {
      ScheduleAppend(b, Act(b, p, turns[0]), turns[1..], t);
      assert (turns + [t])[1..] == turns[1..] + [t];
    }
  }

  /** The spawner launches k calls, and none of them gets on. */
  lemma {:induction false} LaunchOnly(b: Batch, k: nat) returns (turns: seq<Turn>)
    requires k <= |b.items| && k <= b.capacity
    ensures Schedule(b, Begin(b), turns)
    ensures After(b, Begin(b), turns) ==
            Pool(seq(|b.items|, i => if i < k then Calling else Absent), Adding(k), k, k, false, [], [])
  {
    if k == 0 {
      turns := [];
      assert Begin(b).workers == seq(|b.items|, i => if i < k then Calling else Absent);
    } else {
      var before := LaunchOnly(b, k - 1);
      var p := After(b, Begin(b), before);
      ScheduleAppend(b, Begin(b), before, SpawnerTurn);
      ScheduleAppend(b, Begin(b), before + [SpawnerTurn], SpawnerTurn);
      ScheduleAppend(b, Begin(b), before + [SpawnerTurn] + [SpawnerTurn], SpawnerTurn);
      turns := before + [SpawnerTurn] + [SpawnerTurn] + [SpawnerTurn];
      assert p.workers[k - 1 := Calling] == seq(|b.items|, i => if i < k then Calling else Absent);
    }
  }

  lemma {:induction false} LaunchedInFlight(n: nat, k: nat)
    requires k <= n
    ensures Sum(seq(n, i => if i < k then Calling else Absent), InFlight) == k
  {
    var w := seq(n, i => if i < k then Calling else Absent);
    if n > 0 {
      var m := if k < n then k else n - 1;
      LaunchedInFlight(n - 1, m);
      assert w[..n - 1] == seq(n - 1, i => if i < m then Calling else Absent);
    }
  }

  /** How many calls can be in flight at once: any number up to the batch's size and the configured concurrency,
      which is eight when it was left at zero. */
  lemma InFlightExactly(items: seq<Item>, outcome: seq<Result<Response, RegisterError>>, cfg: Config, k: nat)
    requires |outcome| == |items| && cfg.concurrency >= 0
    ensures var b := BatchOf(items, outcome, cfg);
      (exists turns :: Schedule(b, Begin(b), turns) && Sum(After(b, Begin(b), turns).workers, InFlight) == k) <==>
      k <= |items| && k <= if cfg.concurrency == 0 then 8 else cfg.concurrency
  {
    var b := BatchOf(items, outcome, cfg);
    forall turns | Schedule(b, Begin(b), turns)
      ensures Sum(After(b, Begin(b), turns).workers, InFlight) <= b.capacity
      ensures Sum(After(b, Begin(b), turns).workers, InFlight) <= |items|
    {
      EveryInterleaving(b, turns);
      SumAtMostLength(After(b, Begin(b), turns).workers, InFlight);
      BeginOk(b);
      SumConstant(Begin(b).workers, WorkerLeft, 7);
      ScheduleKeepsInv(b, Begin(b), turns);
    }
    if k <= |items| && k <= b.capacity {
      var turns := LaunchOnly(b, k);
      LaunchedInFlight(|items|, k);
    }
  }

  /** The scheduler picks any goroutine that can move until the spawner returns. */
  method HandleBatchRegister(items: seq<Item>, outcome: seq<Result<Response, RegisterError>>, cfg: Config)
    returns (res: Result<BatchResult, BatchError>)
    requires |outcome| == |items|
    ensures |items| == 0 ==> res == Err(EmptyBatch)
    ensures var limit := if cfg.maxBatchSize == 0 then 100 else cfg.maxBatchSize;
      && (0 < |items| && |items| > limit ==> res == Err(BatchTooLarge))
      && (0 < |items| <= limit && cfg.concurrency < 0 ==> res == Err(NegativeChannel))
      && (0 < |items| <= limit && cfg.concurrency >= 0 ==>
            && res.Ok? && res.value.total == |items| == |res.value.succeeded| + |res.value.failed|
            && (forall i: nat, r :: Success(i, r) in res.value.succeeded <==> i < |outcome| && outcome[i] == Ok(r))
            && (forall i: nat, u, e :: Failure(i, u, e) in res.value.failed <==>
                  && i < |outcome| && outcome[i] == Err(e)
                  && u == match items[i] case Some(text) => text case None => ""))
  {
    var c := WithDefaults(cfg);
    if |items| == 0 {
      return Err(EmptyBatch);
    }
    if |items| > c.maxBatchSize {
      return Err(BatchTooLarge);
    }
    if c.concurrency < 0 {
      return Err(NegativeChannel);
    }
    var b := BatchOf(items, outcome, cfg);
    var p := Begin(b);
    BeginOk(b);
    while !p.spawner.Returned?
      invariant Inv(b, p)
      decreases Measure(p)
    {
      ghost var any := NeverStuck(b, p);
      var t :| Enabled(b, p, t);
      ActKeepsInv(b, p, t);
      EveryActionCounts(b, p, t);
      MeasureNonnegative(b, p);
      p := Act(b, p, t);
    }
    ReturnedIsComplete(b, p);
    res := Ok(BatchResult(p.succeeded, p.failed, |items|));
  }
}
