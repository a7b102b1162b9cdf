/** app/core/queue.py and app/workers/upload_worker.py: a bounded queue with an in-flight
    guard. The guard's lock is not held across the put, so enqueuing threads, the worker
    and a shutdown request interleave between those steps. */
module BatchQueueProtocol {
  import opened Text

  datatype Mode = Upload | Proceed

  datatype SegmentBatchTask = SegmentBatchTask(
    folderDate: string,
    segment: string,
    mode: Mode,
    batchId: Option<string>,
    proceedSlots: seq<string>)

  // ---- the guard key ----

  function ModeText(m: Mode): string {
    match m
    case Upload => "upload"
    case Proceed => "proceed"
  }

  function IdText(batchId: Option<string>): string {
    if batchId.Some? && batchId.value != "" then batchId.value else "scan"
  }

  function Key(t: SegmentBatchTask): string {
    t.folderDate + "|" + t.segment + "|" + ModeText(t.mode) + "|" + IdText(t.batchId)
  }

  predicate SeparatorFree(t: SegmentBatchTask) {
    '|' !in t.folderDate && '|' !in t.segment
  }

  lemma KeyParts(t: SegmentBatchTask)
    ensures Key(t) == t.folderDate + ['|'] + (t.segment + ['|'] + (ModeText(t.mode) + ['|'] + IdText(t.batchId)))
    ensures '|' !in ModeText(t.mode)
  {
  }

  /** Separator-free dates and segments: the key tells apart everything but a batch without
      an id, an empty one, and one literally called "scan". */
  lemma KeyInjective(a: SegmentBatchTask, b: SegmentBatchTask)
    requires SeparatorFree(a) && SeparatorFree(b)
    ensures Key(a) == Key(b) <==>
              a.folderDate == b.folderDate && a.segment == b.segment && a.mode == b.mode
                && IdText(a.batchId) == IdText(b.batchId)
  {
    if Key(a) == Key(b) {
      KeyParts(a);
      KeyParts(b);
      var a2, b2 := ModeText(a.mode) + ['|'] + IdText(a.batchId), ModeText(b.mode) + ['|'] + IdText(b.batchId);
      SplitUnique(a.folderDate, a.segment + ['|'] + a2, b.folderDate, b.segment + ['|'] + b2, '|');
      SplitUnique(a.segment, a2, b.segment, b2, '|');
      SplitUnique(ModeText(a.mode), IdText(a.batchId), ModeText(b.mode), IdText(b.batchId), '|');
    }
  }

  predicate ProperId(batchId: Option<string>) {
    batchId.Some? && batchId.value != "" && batchId.value != "scan"
  }

  /** The same lane of the same batch, whatever slots ops named. */
  predicate SameTarget(a: SegmentBatchTask, b: SegmentBatchTask) {
    a.folderDate == b.folderDate && a.segment == b.segment && a.mode == b.mode && a.batchId == b.batchId
  }

  /** A superseding batch has an id of its own, so the guard never swallows it. */
  lemma SupersedingIsNotSwallowed(a: SegmentBatchTask, b: SegmentBatchTask)
    requires SeparatorFree(a) && SeparatorFree(b) && ProperId(b.batchId)
    ensures Key(a) == Key(b) <==> SameTarget(a, b)
  {
    KeyInjective(a, b);
  }

  lemma KeyCollisions(date: string, segment: string, mode: Mode)
    ensures Key(SegmentBatchTask(date, segment, mode, None, []))
              == Key(SegmentBatchTask(date, segment, mode, Some("scan"), []))
    ensures Key(SegmentBatchTask("d|e", "f", mode, None, [])) == Key(SegmentBatchTask("d", "e|f", mode, None, []))
  {
  }

  // ---- what the threads share ----

  datatype Item = Work(task: SegmentBatchTask) | Shutdown

  datatype Shared = Shared(inFlight: set<string>, waiting: seq<Item>, unfinished: nat)

  /** maxsize <= 0 means unbounded. */
  predicate HasRoom(maxsize: int, q: Shared) {
    maxsize <= 0 || |q.waiting| < maxsize
  }

  function GuardTaken(q: Shared, key: string): Shared {
    q.(inFlight := q.inFlight + {key})
  }

  function GuardDropped(q: Shared, key: string): Shared {
    q.(inFlight := q.inFlight - {key})
  }

  function ItemPut(q: Shared, item: Item): Shared {
    q.(waiting := q.waiting + [item], unfinished := q.unfinished + 1)
  }

  function ItemTaken(q: Shared): Shared
    requires q.waiting != []
  {
    q.(waiting := q.waiting[1..])
  }

  function MarkedDone(q: Shared): Shared
    requires q.unfinished > 0
  {
    q.(unfinished := q.unfinished - 1)
  }

  datatype Enqueued = Added | Duplicate | Full

  /** How a task is let go of: first it is counted as done, then its key is free again. */
  datatype Parting = CountedDone | KeyFreed(key: string)

  class BatchQueue {
    const maxsize: int
    var inFlight: set<string>
    var waiting: seq<Item>
    var unfinished: nat
    var partings: seq<Parting>

    constructor (maxsize: int)
      ensures this.maxsize == maxsize && Now() == Shared({}, [], 0)
    {
      this.maxsize := maxsize;
      inFlight, waiting, unfinished, partings := {}, [], 0, [];
    }

    ghost function Now(): Shared
      reads this
    {
      Shared(inFlight, waiting, unfinished)
    }

    /** The locked half of enqueue. */
    method TakeGuard(key: string) returns (taken: bool)
      modifies this`inFlight
      ensures taken <==> key !in old(inFlight)
      ensures Now() == if taken then GuardTaken(old(Now()), key) else old(Now())
    {
      if key in inFlight {
        return false;
      }
      inFlight := inFlight + {key};
      taken := true;
    }

    method PutNowait(item: Item) returns (ok: bool)
      modifies this`waiting, this`unfinished
      ensures ok <==> maxsize <= 0 || |old(waiting)| < maxsize
      ensures ok ==> waiting == old(waiting) + [item] && unfinished == old(unfinished) + 1
      ensures !ok ==> Now() == old(Now())
    {
      if maxsize > 0 && |waiting| >= maxsize {
        return false;
      }
      waiting, unfinished := waiting + [item], unfinished + 1;
      ok := true;
    }

    /** Takes the guard, then puts; a full queue gives the guard back. This is one call
        seen from its own thread with no other thread in between. */
    method Enqueue(task: SegmentBatchTask) returns (r: Enqueued)
      modifies this
      ensures r == Duplicate <==> Key(task) in old(inFlight)
      ensures r == Full ==> !HasRoom(maxsize, old(Now()))
      ensures r == Added ==>
                HasRoom(maxsize, old(Now())) && Now() == ItemPut(GuardTaken(old(Now()), Key(task)), Work(task))
      ensures r != Added ==> Now() == old(Now())
    {
      var taken := TakeGuard(Key(task));
      if !taken {
        return Duplicate;
      }
      var ok := PutNowait(Work(task));
      if !ok {
        Release(Key(task));
        return Full;
      }
      r := Added;
    }

    /** Blocks until something waits, so it runs only then. */
    method Get() returns (item: Item)
      requires waiting != []
      modifies this`waiting
      ensures item == old(waiting)[0] && Now() == ItemTaken(old(Now()))
    {
      item, waiting := waiting[0], waiting[1..];
    }

    /** Blocks while the queue is full. */
    method RequestShutdown()
      requires HasRoom(maxsize, Now())
      modifies this`waiting, this`unfinished
      ensures Now() == ItemPut(old(Now()), Shutdown)
    {
      waiting, unfinished := waiting + [Shutdown], unfinished + 1;
    }

    method TaskDone()
      requires unfinished > 0
      modifies this`unfinished, this`partings
      ensures Now() == MarkedDone(old(Now())) && partings == old(partings) + [CountedDone]
    {
      unfinished, partings := unfinished - 1, partings + [CountedDone];
    }

    method Release(key: string)
      modifies this`inFlight, this`partings
      ensures Now() == GuardDropped(old(Now()), key) && partings == old(partings) + [KeyFreed(key)]
    {
      inFlight, partings := inFlight - {key}, partings + [KeyFreed(key)];
    }
  }

  // ---- every thread at once ----

  /** Where an enqueuing thread stands: outside, or between taking the guard and the put,
      or refused by a full queue and about to give the guard back. */
  datatype Thread = Outside | Guarded(task: SegmentBatchTask) | Refused(task: SegmentBatchTask)

  datatype Worker = Listening | Working(task: SegmentBatchTask) | Done(task: SegmentBatchTask) | Stopping | Stopped

  /** added and taken record what was put and handed out; no thread reads them. */
  datatype State = State(q: Shared, threads: seq<Thread>, worker: Worker, added: seq<Item>, taken: seq<Item>)

  datatype Event =
    | Guard(t: nat, task: SegmentBatchTask)
    | Put(t: nat)
    | RollBack(t: nat)
    | AskShutdown
    | Take
    | Finish
    | LetGo
    | Stop

  predicate Enabled(maxsize: int, s: State, e: Event) {
    match e
    case Guard(t, _) => t < |s.threads| && s.threads[t].Outside?
    case Put(t) => t < |s.threads| && s.threads[t].Guarded?
    case RollBack(t) => t < |s.threads| && s.threads[t].Refused?
    case AskShutdown => HasRoom(maxsize, s.q)
    case Take => s.worker.Listening? && s.q.waiting != []
    case Finish => s.worker.Working? && s.q.unfinished > 0
    case LetGo => s.worker.Done?
    case Stop => s.worker.Stopping? && s.q.unfinished > 0
  }

  /** One atomic step, in the order enqueue and the worker's loop take them. */
  function After(maxsize: int, s: State, e: Event): State
    requires Enabled(maxsize, s, e)
  {
    match e
    case Guard(t, task) =>
      if Key(task) in s.q.inFlight then s
      else s.(q := GuardTaken(s.q, Key(task)), threads := s.threads[t := Guarded(task)])
    case Put(t) =>
      var item := Work(s.threads[t].task);
      if HasRoom(maxsize, s.q)
        then s.(q := ItemPut(s.q, item), threads := s.threads[t := Outside], added := s.added + [item])
      else s.(threads := s.threads[t := Refused(s.threads[t].task)])
    case RollBack(t) =>
      s.(q := GuardDropped(s.q, Key(s.threads[t].task)), threads := s.threads[t := Outside])
    case AskShutdown =>
      s.(q := ItemPut(s.q, Shutdown), added := s.added + [Shutdown])
    case Take =>
      var item := s.q.waiting[0];
      s.(q := ItemTaken(s.q), worker := if item.Work? then Working(item.task) else Stopping, taken := s.taken + [item])
    case Finish => s.(q := MarkedDone(s.q), worker := Done(s.worker.task))
    case LetGo => s.(q := GuardDropped(s.q, Key(s.worker.task)), worker := Listening)
    case Stop => s.(q := MarkedDone(s.q), worker := Stopped)
  }

  // ---- who holds which key ----

  function One(holds: bool): nat {
    if holds then 1 else 0
  }

  function WaitingCount(items: seq<Item>, key: string): nat {
    if |items| == 0 then 0
    else One(items[0].Work? && Key(items[0].task) == key) + WaitingCount(items[1..], key)
  }

  predicate ThreadHolds(t: Thread, key: string) {
    !t.Outside? && Key(t.task) == key
  }

  function ThreadCount(threads: seq<Thread>, key: string): nat {
    if |threads| == 0 then 0 else One(ThreadHolds(threads[0], key)) + ThreadCount(threads[1..], key)
  }

  predicate WithWorker(s: State, key: string) {
    (s.worker.Working? || s.worker.Done?) && Key(s.worker.task) == key
  }

  /** In how many places this key is: waiting, with the worker until release, or with a
      thread between guard and put. */
  function Holders(s: State, key: string): nat {
    WaitingCount(s.q.waiting, key) + One(WithWorker(s, key)) + ThreadCount(s.threads, key)
  }

  ghost predicate GuardExact(s: State) {
    forall key :: Holders(s, key) == One(key in s.q.inFlight)
  }

  /** The guard is exactly the keys somebody holds, each held once; the bound holds; and
      unfinished counts what waits plus what was taken and not yet marked done. */
  ghost predicate Inv(maxsize: int, s: State) {
    && GuardExact(s)
    && (maxsize > 0 ==> |s.q.waiting| <= maxsize)
    && s.q.unfinished == |s.q.waiting| + One(s.worker.Working? || s.worker.Stopping?)
    && s.added == s.taken + s.q.waiting
  }

  function Start(threads: nat): State {
    State(Shared({}, [], 0), seq(threads, i => Outside), Listening, [], [])
  }

  lemma {:induction false} ThreadCountZero(threads: seq<Thread>, key: string)
    ensures ThreadCount(threads, key) == 0 <==> forall t :: 0 <= t < |threads| ==> !ThreadHolds(threads[t], key)
  {
    if |threads| > 0 {
      ThreadCountZero(threads[1..], key);
      if t :| 0 <= t < |threads| && ThreadHolds(threads[t], key) && t > 0 {
        assert threads[1..][t - 1] == threads[t];
      }
    }
  }

  lemma StartIsOk(maxsize: int, threads: nat)
    ensures Inv(maxsize, Start(threads))
  {
    forall key ensures Holders(Start(threads), key) == 0 {
      ThreadCountZero(Start(threads).threads, key);
    }
  }

  lemma {:induction false} PutCounts(items: seq<Item>, item: Item, key: string)
    ensures WaitingCount(items + [item], key) == WaitingCount(items, key) + One(item.Work? && Key(item.task) == key)
  {
    if |items| > 0 {
      PutCounts(items[1..], item, key);
      assert (items + [item])[1..] == items[1..] + [item];
    }
  }

  lemma {:induction false} ThreadMoves(threads: seq<Thread>, t: nat, after: Thread, key: string)
    requires t < |threads|
    ensures ThreadCount(threads[t := after], key) + One(ThreadHolds(threads[t], key))
              == ThreadCount(threads, key) + One(ThreadHolds(after, key))
  {
    if t > 0 {
      ThreadMoves(threads[1..], t - 1, after, key);
      assert threads[t := after][1..] == threads[1..][t - 1 := after] && threads[1..][t - 1] == threads[t];
    } else {
      assert threads[t := after][1..] == threads[1..];
    }
  }

  /** Each step moves one key, or none, from one place to another. */
  lemma EnqueueKeepsKey(maxsize: int, s: State, e: Event, key: string)
    requires Enabled(maxsize, s, e) && (e.Guard? || e.Put? || e.RollBack? || e.AskShutdown?)
    requires Holders(s, key) == One(key in s.q.inFlight)
    ensures Holders(After(maxsize, s, e), key) == One(key in After(maxsize, s, e).q.inFlight)
  {
    hide Key, WaitingCount, ThreadCount;
    match e
    case Guard(t, task) => ThreadMoves(s.threads, t, Guarded(task), key);
    case Put(t) =>
      PutCounts(s.q.waiting, Work(s.threads[t].task), key);
      ThreadMoves(s.threads, t, After(maxsize, s, e).threads[t], key);
    case RollBack(t) => ThreadMoves(s.threads, t, Outside, key);
    case AskShutdown => PutCounts(s.q.waiting, Shutdown, key);
  }

  lemma WorkerKeepsKey(maxsize: int, s: State, e: Event, key: string)
    requires Enabled(maxsize, s, e) && (e.Take? || e.Finish? || e.LetGo? || e.Stop?)
    requires Holders(s, key) == One(key in s.q.inFlight)
    ensures Holders(After(maxsize, s, e), key) == One(key in After(maxsize, s, e).q.inFlight)
  {
  }

  lemma StepKeepsGuard(maxsize: int, s: State, e: Event)
    requires Inv(maxsize, s) && Enabled(maxsize, s, e)
    ensures GuardExact(After(maxsize, s, e))
  {
    hide Enabled, After, Holders;
    forall key ensures Holders(After(maxsize, s, e), key) == One(key in After(maxsize, s, e).q.inFlight) {
      if e.Take? || e.Finish? || e.LetGo? || e.Stop? {
        WorkerKeepsKey(maxsize, s, e, key);
      } else {
        EnqueueKeepsKey(maxsize, s, e, key);
      }
    }
  }

  /** Whatever thread moves next. */
  lemma StepKeeps(maxsize: int, s: State, e: Event)
    requires Inv(maxsize, s) && Enabled(maxsize, s, e)
    ensures Inv(maxsize, After(maxsize, s, e))
  {
    StepKeepsGuard(maxsize, s, e);
  }

  ghost predicate IsRun(maxsize: int, states: seq<State>, events: seq<Event>) {
    && |states| == |events| + 1 && (exists n: nat :: states[0] == Start(n))
    && forall i ::
         0 <= i < |events| ==>
           Enabled(maxsize, states[i], events[i]) && states[i + 1] == After(maxsize, states[i], events[i])
  }

  /** Under every interleaving. */
  lemma {:induction false} RunKeeps(maxsize: int, states: seq<State>, events: seq<Event>, i: nat)
    requires IsRun(maxsize, states, events) && i < |states|
    ensures Inv(maxsize, states[i])
  {
    if i == 0 {
      var n: nat :| states[0] == Start(n);
      StartIsOk(maxsize, n);
    } else {
      RunKeeps(maxsize, states, events, i - 1);
      StepKeeps(maxsize, states[i - 1], events[i - 1]);
    }
  }

  /** Once the worker has seen the sentinel off it is gone: it takes nothing more. */
  lemma {:induction false} StopsForGood(maxsize: int, states: seq<State>, events: seq<Event>, j: nat, k: nat)
    requires IsRun(maxsize, states, events) && j < k < |states| && events[j].Stop?
    ensures states[k].worker.Stopped? && states[k].taken == states[j].taken
    ensures k < |events| ==> !events[k].Take? && !events[k].Finish? && !events[k].LetGo?
  {
    if j < k - 1 {
      StopsForGood(maxsize, states, events, j, k - 1);
    }
  }

  // ---- what that means for one batch ----

  lemma {:induction false} WaitingCountZero(items: seq<Item>, key: string)
    ensures WaitingCount(items, key) == 0 <==>
              forall i :: 0 <= i < |items| && items[i].Work? ==> Key(items[i].task) != key
  {
    if |items| > 0 {
      WaitingCountZero(items[1..], key);
      if i :| 0 <= i < |items| && items[i].Work? && Key(items[i].task) == key && i > 0 {
        assert items[1..][i - 1] == items[i];
      }
    }
  }

  lemma {:induction false} QueuedTwice(items: seq<Item>, i: nat, j: nat)
    requires i < j < |items| && items[i].Work? && items[j].Work? && Key(items[i].task) == Key(items[j].task)
    ensures WaitingCount(items, Key(items[i].task)) >= 2
  {
    if i > 0 {
      QueuedTwice(items[1..], i - 1, j - 1);
    } else {
      assert items[1..][j - 1] == items[j];
      WaitingCountZero(items[1..], Key(items[i].task));
    }
  }

  predicate WaitsInQueue(s: State, key: string) {
    exists i :: 0 <= i < |s.q.waiting| && s.q.waiting[i].Work? && Key(s.q.waiting[i].task) == key
  }

  predicate WithThread(s: State, key: string) {
    exists t :: 0 <= t < |s.threads| && ThreadHolds(s.threads[t], key)
  }

  /** At every moment a batch is in flight exactly while it waits, is worked on, or is
      between guard and put, and it is never in two of these places or queued twice. */
  lemma InFlightExactly(maxsize: int, states: seq<State>, events: seq<Event>, n: nat, key: string)
    requires IsRun(maxsize, states, events) && n < |states|
    ensures var s := states[n];
            && (key in s.q.inFlight <==> WaitsInQueue(s, key) || WithWorker(s, key) || WithThread(s, key))
            && !(WaitsInQueue(s, key) && WithWorker(s, key))
            && !(WaitsInQueue(s, key) && WithThread(s, key))
            && !(WithWorker(s, key) && WithThread(s, key))
            && forall i, j :: 0 <= i < j < |s.q.waiting| && s.q.waiting[i].Work? && s.q.waiting[j].Work? ==>
                 Key(s.q.waiting[i].task) != Key(s.q.waiting[j].task)
  {
    RunKeeps(maxsize, states, events, n);
    var s := states[n];
    WaitingCountZero(s.q.waiting, key);
    ThreadCountZero(s.threads, key);
    assert Holders(s, key) == One(key in s.q.inFlight);
    forall i, j | 0 <= i < j < |s.q.waiting| && s.q.waiting[i].Work? && s.q.waiting[j].Work?
      ensures Key(s.q.waiting[i].task) != Key(s.q.waiting[j].task)
    {
      assert Holders(s, Key(s.q.waiting[i].task)) == One(Key(s.q.waiting[i].task) in s.q.inFlight);
      if Key(s.q.waiting[i].task) == Key(s.q.waiting[j].task) {
        QueuedTwice(s.q.waiting, i, j);
      }
    }
  }

  /** Nothing added is lost, repeated or overtaken, and the counters tell the truth. */
  lemma FirstInFirstOut(maxsize: int, states: seq<State>, events: seq<Event>, n: nat)
    requires IsRun(maxsize, states, events) && n < |states|
    ensures var s := states[n];
            && s.added == s.taken + s.q.waiting
            && (maxsize > 0 ==> |s.q.waiting| <= maxsize)
            && (s.q.unfinished == 0 <==> s.q.waiting == [] && !s.worker.Working? && !s.worker.Stopping?)
  {
    RunKeeps(maxsize, states, events, n);
  }

  /** task_done never over-counts: the worker's next step is never blocked by it. */
  lemma WorkerNeverStuck(maxsize: int, states: seq<State>, events: seq<Event>, n: nat)
    requires IsRun(maxsize, states, events) && n < |states|
    ensures var s := states[n];
            && (s.worker.Working? ==> Enabled(maxsize, s, Finish))
            && (s.worker.Stopping? ==> Enabled(maxsize, s, Stop))
            && (s.worker.Listening? && s.q.waiting != [] ==> Enabled(maxsize, s, Take))
  {
    RunKeeps(maxsize, states, events, n);
  }

  // ---- the worker's loop on its own thread ----

  /** How working on a batch ended: done, or raised and written down as failed, or raised and
      not even that could be written. */
  datatype Ending = Finished | CrashRecorded | CrashLost

  datatype Worked = Worked(task: SegmentBatchTask, ending: Ending)

  function KeysOf(done: seq<Worked>): set<string> {
    if |done| == 0 then {} else KeysOf(done[..|done| - 1]) + {Key(done[|done| - 1].task)}
  }

  ghost predicate AreWork(items: seq<Item>, done: seq<Worked>) {
    |done| <= |items| && forall i :: 0 <= i < |done| ==> items[i] == Work(done[i].task)
  }

  /** What the guard promises of a queue at any moment: everything that waits is guarded, and
      no key waits twice. */
  ghost predicate Guards(inFlight: set<string>, items: seq<Item>) {
    && (forall i :: 0 <= i < |items| && items[i].Work? ==> Key(items[i].task) in inFlight)
    && forall i, j ::
         0 <= i < j < |items| && items[i].Work? && items[j].Work? ==> Key(items[i].task) != Key(items[j].task)
  }

  lemma OneMoreTask(items: seq<Item>, done: seq<Worked>, w: Worked)
    requires AreWork(items, done) && |done| < |items| && items[|done|] == Work(w.task)
    ensures AreWork(items, done + [w]) && KeysOf(done + [w]) == KeysOf(done) + {Key(w.task)}
  {
    hide Key;
    var more := done + [w];
    assert more[..|more| - 1] == done && more[|more| - 1] == w;
  }

  /** Letting go of the head's key leaves the rest guarded. */
  lemma RestStaysGuarded(inFlight: set<string>, items: seq<Item>)
    requires |items| > 0 && items[0].Work? && Guards(inFlight, items)
    ensures Guards(inFlight - {Key(items[0].task)}, items[1..])
  {
  }

  /** What the worker asked of the upload service, in order: to process a batch, which may
      raise, and to write one down as failed, which may fail to. */
  datatype WorkCall =
    | Processed(task: SegmentBatchTask, raised: bool)
    | MarkedFailed(task: SegmentBatchTask, recorded: bool)

  class UploadService {
    var calls: seq<WorkCall>

    constructor ()
      ensures calls == []
    {
      calls := [];
    }

    /** The work itself. It may raise anything, and it happens while the batch is still
        guarded and still counted as unfinished. */
    method ProcessBatch(queue: BatchQueue, task: SegmentBatchTask) returns (raised: bool)
      requires Key(task) in queue.inFlight && queue.unfinished == |queue.waiting| + 1
      modifies this
      ensures calls == old(calls) + [Processed(task, raised)]
    {
      raised := *;
      calls := calls + [Processed(task, raised)];
    }

    /** Writes the batch down as failed; best effort, still under the guard. */
    method MarkBatchFailed(queue: BatchQueue, task: SegmentBatchTask) returns (recorded: bool)
      requires Key(task) in queue.inFlight && queue.unfinished == |queue.waiting| + 1
      modifies this
      ensures calls == old(calls) + [MarkedFailed(task, recorded)]
    {
      recorded := *;
      calls := calls + [MarkedFailed(task, recorded)];
    }
  }

  /** One turn of the loop for a batch: it is processed once, and written down as failed once
      exactly when that raised; and no way it ends keeps it from being marked done and let go,
      in that order. */
  method WorkOn(queue: BatchQueue, service: UploadService, task: SegmentBatchTask) returns (w: Worked)
    requires Key(task) in queue.inFlight && queue.unfinished == |queue.waiting| + 1
    modifies queue, service
    ensures w.task == task && queue.Now() == GuardDropped(MarkedDone(old(queue.Now())), Key(task))
    ensures queue.partings == old(queue.partings) + [CountedDone, KeyFreed(Key(task))]
    ensures service.calls == old(service.calls) + CallsFor(w)
    ensures w.ending == Finished <==> service.calls == old(service.calls) + [Processed(task, false)]
    ensures w.ending == CrashRecorded <==>
              service.calls == old(service.calls) + [Processed(task, true), MarkedFailed(task, true)]
    ensures w.ending == CrashLost <==>
              service.calls == old(service.calls) + [Processed(task, true), MarkedFailed(task, false)]
  {
    var raised := service.ProcessBatch(queue, task);
    w := Worked(task, Finished);
    if raised {
      var recorded := service.MarkBatchFailed(queue, task);
      w := Worked(task, if recorded then CrashRecorded else CrashLost);
    }
    queue.TaskDone();
    queue.Release(Key(task));
    ghost var news := service.calls[|old(service.calls)|..];
    assert service.calls == old(service.calls) + news;
    assert news == if raised then [Processed(task, true), MarkedFailed(task, w.ending == CrashRecorded)]
                   else [Processed(task, false)];
  }

  function CallsFor(w: Worked): seq<WorkCall> {
    match w.ending
    case Finished => [Processed(w.task, false)]
    case CrashRecorded => [Processed(w.task, true), MarkedFailed(w.task, true)]
    case CrashLost => [Processed(w.task, true), MarkedFailed(w.task, false)]
  }

  function AllCalls(done: seq<Worked>): seq<WorkCall> {
    if |done| == 0 then [] else AllCalls(done[..|done| - 1]) + CallsFor(done[|done| - 1])
  }

  /** A batch is written down as failed right after its work raised, and then always. */
  ghost predicate MarksFollowCrashes(calls: seq<WorkCall>) {
    && (forall i ::
          0 <= i < |calls| && calls[i].MarkedFailed? ==> i > 0 && calls[i - 1] == Processed(calls[i].task, true))
    && (forall i :: 0 <= i < |calls| && calls[i].Processed? && calls[i].raised ==>
          i + 1 < |calls| && calls[i + 1].MarkedFailed? && calls[i + 1].task == calls[i].task)
  }

  /** The batches processed, in order. */
  function TasksProcessed(calls: seq<WorkCall>): seq<SegmentBatchTask> {
    if |calls| == 0 then []
    else
      var rest, last := TasksProcessed(calls[..|calls| - 1]), calls[|calls| - 1];
      if last.Processed? then rest + [last.task] else rest
  }

  lemma {:induction false} ProcessedJoin(a: seq<WorkCall>, b: seq<WorkCall>)
    ensures TasksProcessed(a + b) == TasksProcessed(a) + TasksProcessed(b)
  {
    if |b| == 0 {
      assert a + b == a;
    } else {
      ProcessedJoin(a, b[..|b| - 1]);
      assert (a + b)[..|a + b| - 1] == a + b[..|b| - 1];
    }
  }

  lemma ProcessedOnce(w: Worked)
    ensures TasksProcessed(CallsFor(w)) == [w.task]
  {
    var calls := CallsFor(w);
    assert TasksProcessed(calls[..0]) == [];
    if |calls| == 2 {
      assert calls[..1] == [Processed(w.task, true)] && calls[..1][..0] == [];
      assert TasksProcessed(calls[..1]) == [w.task];
    }
  }

  /** Each batch is processed once, in order, and exactly those whose work raised are written
      down as failed, each right after it raised. */
  lemma {:induction false} CallsTell(done: seq<Worked>)
    ensures MarksFollowCrashes(AllCalls(done))
    ensures |TasksProcessed(AllCalls(done))| == |done|
    ensures forall i :: 0 <= i < |done| ==> TasksProcessed(AllCalls(done))[i] == done[i].task
  {
    hide MarksFollowCrashes, CallsFor, TasksProcessed;
    if |done| == 0 {
      NothingTold();
    } else {
      var init, last := done[..|done| - 1], done[|done| - 1];
      CallsTell(init);
      ProcessedJoin(AllCalls(init), CallsFor(last));
      ProcessedOnce(last);
      MarksJoin(AllCalls(init), last);
    }
  }

  lemma NothingTold()
    ensures MarksFollowCrashes([]) && TasksProcessed([]) == []
  {
  }

  lemma MarksJoin(calls: seq<WorkCall>, w: Worked)
    requires MarksFollowCrashes(calls)
    ensures MarksFollowCrashes(calls + CallsFor(w))
  {
  }

  lemma NoCalls()
    ensures AllCalls([]) == []
  {
  }

  lemma NextCalls(done: seq<Worked>, w: Worked)
    ensures AllCalls(done + [w]) == AllCalls(done) + CallsFor(w)
  {
    assert (done + [w])[..|done|] == done;
  }

  /** upload_worker.run, up to the point where it would block: however the work on each batch
      ends, every batch is worked on once, in queue order, under its guard. */
  method Run(queue: BatchQueue, service: UploadService) returns (done: seq<Worked>, stopped: bool)
    requires queue.unfinished == |queue.waiting| && Guards(queue.inFlight, queue.waiting)
    modifies queue, service
    ensures AreWork(old(queue.waiting), done)
    ensures service.calls == old(service.calls) + AllCalls(done)
    ensures stopped ==>
              && |done| < |old(queue.waiting)| && old(queue.waiting)[|done|] == Shutdown
              && queue.waiting == old(queue.waiting)[|done| + 1..]
    ensures !stopped ==> |done| == |old(queue.waiting)| && queue.waiting == []
    ensures queue.unfinished == |queue.waiting| && Guards(queue.inFlight, queue.waiting)
    ensures queue.inFlight == old(queue.inFlight) - KeysOf(done)
  {
    hide Key, CallsFor, AllCalls;
    ghost var items := queue.waiting;
    done, stopped := [], false;
    NoCalls();
    while |queue.waiting| > 0
      invariant AreWork(items, done) && queue.waiting == items[|done|..]
      invariant service.calls == old(service.calls) + AllCalls(done)
      invariant queue.unfinished == |queue.waiting| && Guards(queue.inFlight, queue.waiting)
      invariant queue.inFlight == old(queue.inFlight) - KeysOf(done)
      decreases |queue.waiting|
    {
      ghost var before := queue.waiting;
      var item := queue.Get();
      if item.Shutdown? {
        queue.TaskDone();
        assert Guards(queue.inFlight, before[1..]);
        return done, true;
      }
      RestStaysGuarded(queue.inFlight, before);
      var w := WorkOn(queue, service, item.task);
      OneMoreTask(items, done, w);
      NextCalls(done, w);
      done := done + [w];
    }
  }

  /** The service goes down: the sentinel joins behind every batch that waits, so the worker
      finishes them all, lets go of each, and stops with nothing left over. */
  method ShutDown(queue: BatchQueue, service: UploadService) returns (done: seq<Worked>)
    requires HasRoom(queue.maxsize, queue.Now())
    requires queue.unfinished == |queue.waiting| && Guards(queue.inFlight, queue.waiting)
    requires forall i :: 0 <= i < |queue.waiting| ==> queue.waiting[i].Work?
    modifies queue, service
    ensures service.calls == old(service.calls) + AllCalls(done)
    ensures AreWork(old(queue.waiting), done) && |done| == |old(queue.waiting)|
    ensures queue.waiting == [] && queue.unfinished == 0
    ensures queue.inFlight == old(queue.inFlight) - KeysOf(done)
  {
    ghost var items := queue.waiting;
    queue.RequestShutdown();
    assert queue.waiting == items + [Shutdown];
    var stopped;
    done, stopped := Run(queue, service);
  }
}
