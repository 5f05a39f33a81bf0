/** The broker: free cores per worker and a queue of the tasks that found none.

    SendTaskToWorkerFromQueue reads the back of the queue and pops its front. Both that step and
    the first-in first-out step are modelled; they agree exactly when one task is queued.
 */
module Broker {
  import opened Domain
  import opened ValueNumbering
  import opened Dispatch

  type WorkerId = nat

  datatype WorkerTask = WorkerTask(identity: WorkerId, task: Task)

  datatype WorkerMessage = CoreCount(count: nat) | TaskDone(identity: WorkerId, key: TaskKey)

  /** free is worker_routing_id_to_available_core_count_; published and replied are everything sent
      so far on the PUB socket and on the manager's socket. */
  datatype BrokerState = BrokerState(
    free: map<WorkerId, nat>,
    queue: seq<Task>,
    published: seq<WorkerTask>,
    replied: seq<TaskKey>)

  datatype Drain = AsWritten | Fifo

  const SIZE_T: nat := 0x1_0000_0000_0000_0000

  function Increment(n: nat): nat {
    (n + 1) % SIZE_T
  }

  /** An unsigned decrement wraps at zero. */
  function Decrement(n: nat): nat {
    if n == 0 then SIZE_T - 1 else n - 1
  }

  /** The counters are unsigned 64-bit numbers: one up and one down undo each other, also across zero. */
  lemma CountersWrap(n: nat)
    ensures Increment(n) < SIZE_T && (Increment(n) - n - 1) % SIZE_T == 0
    ensures n < SIZE_T ==> Decrement(n) < SIZE_T && (n - Decrement(n) - 1) % SIZE_T == 0
  {
  }

  function Registered(s: BrokerState, w: WorkerId, count: nat): BrokerState {
    s.(free := s.free[w := count])
  }

  function Publish(s: BrokerState, w: WorkerId, t: Task): BrokerState
    requires w in s.free
  {
    s.(published := s.published + [WorkerTask(w, t)], free := s.free[w := Decrement(s.free[w])])
  }

  /** A worker with a free core, or none because there is none. */
  predicate ValidChoice(s: BrokerState, choice: Option<WorkerId>) {
    match choice
    case Some(w) => w in s.free && s.free[w] != 0
    case None => forall w :: w in s.free ==> s.free[w] == 0
  }

  function Assign(s: BrokerState, t: Task, choice: Option<WorkerId>): BrokerState
    requires ValidChoice(s, choice)
  {
    match choice
    case Some(w) => Publish(s, w, t)
    case None => s.(queue := s.queue + [t])
  }

  function Taken(drain: Drain, queue: seq<Task>): Task
    requires queue != []
  {
    match drain
    case AsWritten => queue[|queue| - 1]
    case Fifo => queue[0]
  }

  function FromQueue(drain: Drain, s: BrokerState, w: WorkerId): BrokerState
    requires s.queue != [] && w in s.free
  {
    Publish(s.(queue := s.queue[1..]), w, Taken(drain, s.queue))
  }

  function Replied(drain: Drain, s: BrokerState, w: WorkerId, k: TaskKey): BrokerState
    requires w in s.free
  {
    var s1 := s.(free := s.free[w := Increment(s.free[w])]);
    var s2 := if s1.queue != [] then FromQueue(drain, s1, w) else s1;
    s2.(replied := s2.replied + [k])
  }

  class Broker {
    var free: map<WorkerId, nat>
    var queue: seq<Task>
    var published: seq<WorkerTask>
    var replied: seq<TaskKey>

    function State(): BrokerState
      reads this
    {
      BrokerState(free, queue, published, replied)
    }

    constructor ()
      ensures State() == BrokerState(map[], [], [], [])
    {
      free, queue, published, replied := map[], [], [], [];
    }

    /** false where the duplicate identity is refused. */
    method RegisterWorker(w: WorkerId, count: nat) returns (ok: bool)
      modifies this
      ensures ok <==> w !in old(free)
      ensures State() == if ok then Registered(old(State()), w, count) else old(State())
    {
      if w in free {
        return false;
      }
      free := free[w := count];
      ok := true;
    }

    method SendTaskToWorkerImpl(w: WorkerId, t: Task)
      requires w in free
      modifies this
      ensures State() == Publish(old(State()), w, t)
    {
      published := published + [WorkerTask(w, t)];
      free := free[w := Decrement(free[w])];
    }

    /** The first worker with a free core in the map's iteration order, if any. */
    method FindFree() returns (choice: Option<WorkerId>)
      ensures ValidChoice(State(), choice)
    {
      var left := free.Keys;
      while left != {}
        invariant left <= free.Keys
        invariant forall w :: w in free && w !in left ==> free[w] == 0
        decreases |left|
      {
        var w :| w in left;
        if free[w] != 0 {
          return Some(w);
        }
        left := left - {w};
      }
      choice := None;
    }

    method SendTaskToWorker(t: Task) returns (choice: Option<WorkerId>)
      modifies this
      ensures ValidChoice(old(State()), choice)
      ensures State() == Assign(old(State()), t, choice)
    {
      choice := FindFree();
      match choice {
        case None => queue := queue + [t];
        case Some(w) => SendTaskToWorkerImpl(w, t);
      }
    }

    method SendTaskToWorkerFromQueue(w: WorkerId)
      requires queue != [] && w in free
      modifies this
      ensures State() == FromQueue(AsWritten, old(State()), w)
      ensures [old(queue)[0]] + queue == old(queue)
      ensures published == old(published) + [WorkerTask(w, old(queue)[|old(queue)| - 1])]
    {
      var t := queue[|queue| - 1];
      queue := queue[1..];
      SendTaskToWorkerImpl(w, t);
    }

    /** false where the lookup of an unregistered worker would throw. */
    method ProcessWorkerTaskReply(w: WorkerId, k: TaskKey) returns (ok: bool)
      modifies this
      ensures ok <==> w in old(free)
      ensures State() == if ok then Replied(AsWritten, old(State()), w, k) else old(State())
    {
      if w !in free {
        return false;
      }
      free := free[w := Increment(free[w])];
      if queue != [] {
        SendTaskToWorkerFromQueue(w);
      }
      replied := replied + [k];
      ok := true;
    }
  }

  // ---------- the written drain against first-in first-out ----------

  /** For distinct tasks the two drains agree exactly when one task is queued. */
  lemma DrainsAgreeIff(s: BrokerState, w: WorkerId)
    requires s.queue != [] && w in s.free && Distinct(s.queue)
    ensures FromQueue(AsWritten, s, w) == FromQueue(Fifo, s, w) <==> |s.queue| == 1
  {
    var a, b := FromQueue(AsWritten, s, w), FromQueue(Fifo, s, w);
    assert a.published[|s.published|].task == s.queue[|s.queue| - 1];
    assert b.published[|s.published|].task == s.queue[0];
  }

  /** With two or more tasks queued the written drain loses the oldest task, neither publishing nor
      keeping it, and publishes the newest while it stays queued. */
  lemma WrittenDrainLosesOldest(s: BrokerState, w: WorkerId)
    requires |s.queue| >= 2 && w in s.free && Distinct(s.queue)
    ensures var s' := FromQueue(AsWritten, s, w);
            && s.queue[0] !in s'.queue
            && s'.published == s.published + [WorkerTask(w, s.queue[|s.queue| - 1])]
            && s'.published[|s.published|].task != s.queue[0]
            && s.queue[|s.queue| - 1] in s'.queue
  {
    var s' := FromQueue(AsWritten, s, w);
    assert s'.queue[|s'.queue| - 1] == s.queue[|s.queue| - 1];
  }

  /** What a drain does to every task: one is published to the worker that replied, the newest as written
      and the oldest first-in first-out; the oldest leaves the queue, the others stay in their order. */
  lemma DrainKeepsRest(drain: Drain, s: BrokerState, w: WorkerId)
    requires s.queue != [] && w in s.free
    ensures var s', oldest, newest := FromQueue(drain, s, w), s.queue[0], s.queue[|s.queue| - 1];
            var taken := if drain.AsWritten? then newest else oldest;
            && [oldest] + s'.queue == s.queue
            && s'.published == s.published + [WorkerTask(w, taken)]
            && multiset(s'.queue) + multiset(Tasks(s'.published)) + multiset{oldest}
               == multiset(s.queue) + multiset(Tasks(s.published)) + multiset{taken}
            && s'.replied == s.replied
            && s'.free.Keys == s.free.Keys && s'.free[w] == Decrement(s.free[w]) && forall v :: v in s.free && v != w ==> s'.free[v] == s.free[v]
  {
    var s' := FromQueue(drain, s, w);
    var taken := if drain.AsWritten? then s.queue[|s.queue| - 1] else s.queue[0];
    TasksOneMore(s.published, w, taken);
    assert s.queue == [s.queue[0]] + s'.queue;
  }

  // ---------- whole runs of the broker ----------

  datatype Event =
    | Register(w: WorkerId, count: nat)
    | Receive(t: Task, choice: Option<WorkerId>)
    | WorkerReply(w: WorkerId, k: TaskKey)

  predicate Accepts(s: BrokerState, e: Event) {
    match e
    case Register(w, _) => w !in s.free
    case Receive(_, choice) => ValidChoice(s, choice)
    case WorkerReply(w, _) => w in s.free
  }

  function Handle(drain: Drain, s: BrokerState, e: Event): BrokerState
    requires Accepts(s, e)
  {
    match e
    case Register(w, count) => Registered(s, w, count)
    case Receive(t, choice) => Assign(s, t, choice)
    case WorkerReply(w, k) => Replied(drain, s, w, k)
  }

  function Tasks(published: seq<WorkerTask>): (r: seq<Task>)
    ensures |r| == |published| && forall i :: 0 <= i < |r| ==> r[i] == published[i].task
  {
    seq(|published|, i requires 0 <= i < |published| => published[i].task)
  }

  /** A waiting task means no worker has a free core. */
  ghost predicate NeverIdle(s: BrokerState) {
    s.queue != [] ==> forall w :: w in s.free ==> s.free[w] == 0
  }

  /** Every task received has been published or is queued, in the order received. */
  ghost predicate InOrder(s: BrokerState, received: seq<Task>) {
    Tasks(s.published) + s.queue == received
  }

  function Receives(e: Event): seq<Task> {
    if e.Receive? then [e.t] else []
  }

  lemma TasksOneMore(published: seq<WorkerTask>, w: WorkerId, t: Task)
    ensures Tasks(published + [WorkerTask(w, t)]) == Tasks(published) + [t]
  {
  }

  /** Capacity is not left idle, as long as workers register only while nothing waits. */
  lemma HandleKeepsBusy(drain: Drain, s: BrokerState, e: Event)
    requires NeverIdle(s) && Accepts(s, e)
    requires e.Register? ==> s.queue == []
    ensures NeverIdle(Handle(drain, s, e))
  {
  }

  lemma HandleKeepsOrder(s: BrokerState, e: Event, received: seq<Task>)
    requires NeverIdle(s) && InOrder(s, received) && Accepts(s, e)
    requires e.Register? ==> s.queue == []
    ensures InOrder(Handle(Fifo, s, e), received + Receives(e))
  {
    match e
    case Register(_, _) =>
    case Receive(t, choice) =>
      if choice.Some? {
        TasksOneMore(s.published, choice.value, t);
      }
    case WorkerReply(w, _) =>
      if s.queue != [] {
        TasksOneMore(s.published, w, s.queue[0]);
        assert s.queue == [s.queue[0]] + s.queue[1..];
      }
  }

  predicate Polite(s: BrokerState, e: Event) {
    Accepts(s, e) && (e.Register? ==> s.queue == [])
  }

  function Initial(): BrokerState {
    BrokerState(map[], [], [], [])
  }

  /** The state after a run in which every event is accepted and workers register only while
      nothing waits; None for any other sequence of events. */
  function After(drain: Drain, events: seq<Event>): Option<BrokerState> {
    if events == [] then Some(Initial())
    else
      var s, e := After(drain, events[..|events| - 1]), events[|events| - 1];
      if s.None? || !Polite(s.value, e) then None else Some(Handle(drain, s.value, e))
  }

  function AllReceived(events: seq<Event>): seq<Task> {
    if events == [] then [] else AllReceived(events[..|events| - 1]) + Receives(events[|events| - 1])
  }

  /** In every such run tasks leave in arrival order, none lost and none doubled, and none waits
      while a core is free. */
  lemma {:induction false} PoliteRunsKeepOrder(events: seq<Event>)
    requires After(Fifo, events).Some?
    ensures NeverIdle(After(Fifo, events).value)
    ensures InOrder(After(Fifo, events).value, AllReceived(events))
  {
    if events != [] {
      var front, e := events[..|events| - 1], events[|events| - 1];
      PoliteRunsKeepOrder(front);
      HandleKeepsBusy(Fifo, After(Fifo, front).value, e);
      HandleKeepsOrder(After(Fifo, front).value, e, AllReceived(front));
    }
  }

  lemma RunOneMore(drain: Drain, events: seq<Event>, e: Event)
    requires After(drain, events).Some? && Polite(After(drain, events).value, e)
    ensures After(drain, events + [e]) == Some(Handle(drain, After(drain, events).value, e))
  {
    assert (events + [e])[..|events|] == events;
  }

  /** The first four events of the example: a worker with one core, and three tasks. */
  function Crowded(a: Task, b: Task, c: Task): seq<Event> {
    [Register(0, 1)] + [Receive(a, Some(0))] + [Receive(b, None)] + [Receive(c, None)]
  }

  lemma FirstGiven(drain: Drain, a: Task)
    ensures After(drain, [Register(0, 1)] + [Receive(a, Some(0))]) == Some(BrokerState(map[0 := 0], [], [WorkerTask(0, a)], []))
  {
    var r := [Register(0, 1)];
    assert [] + r == r;
    RunOneMore(drain, [], Register(0, 1));
    Fields(After(drain, r).value, map[0 := 1], [], [], []);
    RunOneMore(drain, r, Receive(a, Some(0)));
    Fields(After(drain, r + [Receive(a, Some(0))]).value, map[0 := 0], [], [WorkerTask(0, a)], []);
  }

  /** A task that finds the only core taken is queued. */
  lemma QueuedBehind(drain: Drain, events: seq<Event>, queue: seq<Task>, published: seq<WorkerTask>, t: Task)
    requires After(drain, events) == Some(BrokerState(map[0 := 0], queue, published, []))
    ensures After(drain, events + [Receive(t, None)]) == Some(BrokerState(map[0 := 0], queue + [t], published, []))
  {
    RunOneMore(drain, events, Receive(t, None));
  }

  lemma CrowdedState(drain: Drain, a: Task, b: Task, c: Task)
    ensures After(drain, Crowded(a, b, c)) == Some(BrokerState(map[0 := 0], [b, c], [WorkerTask(0, a)], []))
  {
    var r := [Register(0, 1)] + [Receive(a, Some(0))];
    FirstGiven(drain, a);
    QueuedBehind(drain, r, [], [WorkerTask(0, a)], b);
    assert [] + [b] == [b] && [b] + [c] == [b, c];
    QueuedBehind(drain, r + [Receive(b, None)], [b], [WorkerTask(0, a)], c);
  }

  lemma ReplyWhenCrowded(a: Task, b: Task, c: Task)
    ensures Replied(AsWritten, BrokerState(map[0 := 0], [b, c], [WorkerTask(0, a)], []), 0, a.key)
            == BrokerState(map[0 := 0], [c], [WorkerTask(0, a), WorkerTask(0, c)], [a.key])
  {
    assert [b, c][1..] == [c];
    Fields(Replied(AsWritten, BrokerState(map[0 := 0], [b, c], [WorkerTask(0, a)], []), 0, a.key),
           map[0 := 0], [c], [WorkerTask(0, a), WorkerTask(0, c)], [a.key]);
  }

  /** Three tasks for one free core: as written, the second is lost and the third doubled. */
  lemma WrittenRunLosesTask(a: Task, b: Task, c: Task)
    requires a != b && b != c && a != c
    ensures After(AsWritten, Crowded(a, b, c) + [WorkerReply(0, a.key)])
            == Some(BrokerState(map[0 := 0], [c], [WorkerTask(0, a), WorkerTask(0, c)], [a.key]))
  {
    CrowdedState(AsWritten, a, b, c);
    RunOneMore(AsWritten, Crowded(a, b, c), WorkerReply(0, a.key));
    ReplyWhenCrowded(a, b, c);
  }

  lemma Fields(s: BrokerState, free: map<WorkerId, nat>, queue: seq<Task>, published: seq<WorkerTask>, replied: seq<TaskKey>)
    requires s.free == free && s.queue == queue && s.published == published && s.replied == replied
    ensures s == BrokerState(free, queue, published, replied)
  {
  }
}
