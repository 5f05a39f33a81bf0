/** Without new arrivals the system comes to rest: one measure of the whole state is reduced by every
    step that does something, whichever way the broker drains its queue.
 */
module Termination {
  import opened Domain
  import opened Expression
  import opened Sharing
  import opened Decomposition
  import opened Dispatch
  import opened Broker
  import opened Worker
  import opened Pipeline
  import opened Cluster
  import opened Desk
  import opened Soundness

  /** A pass that finds nothing to send. */
  predicate IsIdle(a: Action) {
    a.Send? && a.ks == []
  }

  /** Steps of problems already admitted, each doing something. */
  ghost predicate AllSteps(steps: seq<Action>) {
    forall i :: 0 <= i < |steps| ==> Internal(steps[i]) && !IsIdle(steps[i])
  }

  // ---------- receivers are not ahead of senders ----------

  ghost predicate Unstarted(c: CalculationData) {
    c.computable.Keys !! c.status.Keys && forall t :: t in c.computable ==> t < |c.dec.graph.vertices|
  }

  ghost predicate AllUnstarted(problems: map<ProblemId, CalculationData>) {
    forall p :: p in problems ==> Unstarted(problems[p])
  }

  ghost predicate CursorsFit(published: seq<WorkerTask>, workers: seq<WorkerState>) {
    forall w :: 0 <= w < |workers| ==> workers[w].cursor <= |published|
  }

  /** No receiver is ahead of its sender, and no frontier holds a started task. */
  ghost predicate Counted(s: Cluster) {
    && s.taken <= |s.sent| && s.seen <= |s.broker.replied|
    && CursorsFit(s.broker.published, s.workers)
    && AllUnstarted(s.problems)
  }

  lemma ReplyUnstarted(c: CalculationData, t: TaskId)
    requires Unstarted(c) && t in c.status && |c.dec.graph.edges| == |c.dec.graph.vertices|
    ensures Unstarted(OnReply(c, t))
  {
  }

  lemma StartUnstarted(d: Decompositor)
    requires |d.graph.edges| == |d.graph.vertices|
    ensures Unstarted(Start(d))
  {
  }

  lemma ReplyKeepsCounted(world: World, s: Cluster)
    requires Counted(s) && Sound(world, s) && s.seen < |s.broker.replied|
    ensures Counted(NextReply(s))
  {
    var p, t := s.broker.replied[s.seen].problem, s.broker.replied[s.seen].task;
    if p in s.problems && t in s.problems[p].status {
      ReplyUnstarted(s.problems[p], t);
    }
  }

  lemma PublishKeepsCursors(published: seq<WorkerTask>, m: WorkerTask, workers: seq<WorkerState>)
    requires CursorsFit(published, workers)
    ensures CursorsFit(published + [m], workers)
  {
  }

  lemma FromWorkerKeepsCounted(drain: Drain, s: Cluster, w: WorkerId)
    requires Counted(s) && w < |s.workers| && s.workers[w].outbox != []
    ensures Counted(NextFromWorker(drain, s, w))
  {
    var workers' := s.workers[w := s.workers[w].(outbox := s.workers[w].outbox[1..])];
    assert CursorsFit(s.broker.published, workers');
    if s.workers[w].outbox[0].TaskDone? && s.broker.queue != [] {
      PublishKeepsCursors(s.broker.published, WorkerTask(s.workers[w].outbox[0].identity, Taken(drain, s.broker.queue)), workers');
    }
  }

  lemma FromManagerKeepsCounted(s: Cluster, choice: Option<WorkerId>)
    requires Counted(s) && s.taken < |s.sent| && ValidChoice(s.broker, choice)
    ensures Counted(s.(broker := Assign(s.broker, s.sent[s.taken], choice), taken := s.taken + 1))
  {
    if choice.Some? {
      PublishKeepsCursors(s.broker.published, WorkerTask(choice.value, s.sent[s.taken]), s.workers);
    }
  }

  lemma JoinKeepsCounted(s: Cluster, cores: nat)
    requires Counted(s)
    ensures Counted(s.(workers := s.workers + [Launch(cores, |s.broker.published|)]))
  {
  }

  lemma DeskKeepsCounted(drain: Drain, world: World, s: Cluster, a: Action)
    requires Counted(s) && Enabled(world, s, a)
    requires a.Push? || a.Send? || a.Clear? || a.Fetch? || a.Finish?
    ensures Counted(Next(drain, world, s, a))
  {
    if a.Push? {
      StartUnstarted(Decompositor(DagOf(a.ast), a.order));
    }
  }

  lemma WorkerKeepsCounted(s: Cluster, w: WorkerId, worker: WorkerState)
    requires Counted(s) && w < |s.workers| && worker.cursor <= |s.broker.published|
    ensures Counted(WithWorker(s, w, worker))
  {
  }

  lemma ThreadStepKeepsCounted(drain: Drain, world: World, s: Cluster, a: Action)
    requires Counted(s) && Enabled(world, s, a) && (a.ReadOne? || a.Compute?)
    ensures Counted(Next(drain, world, s, a))
  {
  }

  lemma WorkerStepKeepsCounted(drain: Drain, world: World, s: Cluster, a: Action)
    requires Counted(s) && Enabled(world, s, a) && (a.ReadInbox? || a.Take? || a.Respond? || a.Output?)
    ensures Counted(Next(drain, world, s, a))
  {
    match a {
      case ReadInbox(w) => WorkerKeepsCounted(s, w, Deliver(w, s.workers[w], s.broker.published[s.workers[w].cursor]));
      case Take(w, i) => WorkerKeepsCounted(s, w, TakeTask(s.workers[w], i));
      case Respond(w, i) => WorkerKeepsCounted(s, w, Report(s.workers[w], i));
      case Output(w) => WorkerKeepsCounted(s, w, CheckOutput(w, s.workers[w]));
    }
  }

  lemma StepKeepsCounted(drain: Drain, world: World, s: Cluster, a: Action)
    requires Counted(s) && Sound(world, s) && Enabled(world, s, a)
    ensures Counted(Next(drain, world, s, a))
  {
    match a {
      case Reply => ReplyKeepsCounted(world, s);
      case FromWorker(w) => FromWorkerKeepsCounted(drain, s, w);
      case FromManager(choice) => FromManagerKeepsCounted(s, choice);
      case Join(cores) => JoinKeepsCounted(s, cores);
      case ReadOne(_, _) => ThreadStepKeepsCounted(drain, world, s, a);
      case Compute(_, _) => ThreadStepKeepsCounted(drain, world, s, a);
      case ReadInbox(_) => WorkerStepKeepsCounted(drain, world, s, a);
      case Take(_, _) => WorkerStepKeepsCounted(drain, world, s, a);
      case Respond(_, _) => WorkerStepKeepsCounted(drain, world, s, a);
      case Output(_) => WorkerStepKeepsCounted(drain, world, s, a);
      case _ => DeskKeepsCounted(drain, world, s, a);
    }
  }

  lemma {:induction false} RunIsCounted(drain: Drain, world: World, run: seq<Action>)
    requires Run(drain, world, run).Some?
    ensures Counted(Run(drain, world, run).value)
  {
    if run != [] {
      var front, a := run[..|run| - 1], run[|run| - 1];
      RunIsCounted(drain, world, front);
      RunIsSound(drain, world, front);
      StepKeepsCounted(drain, world, Run(drain, world, front).value, a);
    }
  }

  // ---------- the measure ----------

  function ThreadRank(t: Thread): nat {
    match t
    case Idle => 0
    case Reading(_, got) => if |got| >= 2 then 5 else 7 - |got|
    case Reporting(_) => 4
  }

  function ThreadsRank(threads: seq<Thread>): nat {
    if threads == [] then 0 else ThreadRank(threads[0]) + ThreadsRank(threads[1..])
  }

  lemma {:induction false} ThreadsRankUpdate(threads: seq<Thread>, i: nat, t: Thread)
    requires i < |threads|
    ensures ThreadsRank(threads[i := t]) + ThreadRank(threads[i]) == ThreadsRank(threads) + ThreadRank(t)
  {
    var threads' := threads[i := t];
    if i == 0 {
      assert threads'[1..] == threads[1..];
    } else {
      assert threads'[1..] == threads[1..][i - 1 := t];
      ThreadsRankUpdate(threads[1..], i - 1, t);
    }
  }

  /** n is the number of publications. */
  function WorkerRank(n: nat, s: WorkerState): int {
    9 * (n - s.cursor) + 8 * |s.pending| + ThreadsRank(s.threads) + 3 * |s.finished| + 2 * |s.outbox|
  }

  function WorkersRank(n: nat, workers: seq<WorkerState>): int {
    if workers == [] then 0 else WorkerRank(n, workers[0]) + WorkersRank(n, workers[1..])
  }

  lemma {:induction false} WorkersRankUpdate(n: nat, workers: seq<WorkerState>, w: nat, s: WorkerState)
    requires w < |workers|
    ensures WorkersRank(n, workers[w := s]) + WorkerRank(n, workers[w]) == WorkersRank(n, workers) + WorkerRank(n, s)
  {
    var workers' := workers[w := s];
    if w == 0 {
      assert workers'[1..] == workers[1..];
    } else {
      assert workers'[1..] == workers[1..][w - 1 := s];
      WorkersRankUpdate(n, workers[1..], w - 1, s);
    }
  }

  /** A publication is read by every worker. */
  lemma {:induction false} WorkersRankPublish(n: nat, workers: seq<WorkerState>)
    ensures WorkersRank(n + 1, workers) == WorkersRank(n, workers) + 9 * |workers|
  {
    if workers != [] {
      WorkersRankPublish(n, workers[1..]);
    }
  }

  lemma {:induction false} WorkersRankNonNegative(n: nat, workers: seq<WorkerState>)
    requires forall w :: 0 <= w < |workers| ==> workers[w].cursor <= n
    ensures WorkersRank(n, workers) >= 0
  {
    if workers != [] {
      WorkersRankNonNegative(n, workers[1..]);
    }
  }

  function FrameRank(f: Frame): nat {
    match f
    case Waiting(b) => if b then 3 else 4
    case Cleared => 2
    case Fetched(_) => 1
    case Returned(_) => 0
  }

  function ClientsRank(clients: seq<Client>): nat {
    if clients == [] then 0 else FrameRank(clients[0].frame) + ClientsRank(clients[1..])
  }

  lemma {:induction false} ClientsRankUpdate(clients: seq<Client>, p: nat, c: Client)
    requires p < |clients|
    ensures ClientsRank(clients[p := c]) + FrameRank(clients[p].frame) == ClientsRank(clients) + FrameRank(c.frame)
  {
    var clients' := clients[p := c];
    if p == 0 {
      assert clients'[1..] == clients[1..];
    } else {
      assert clients'[1..] == clients[1..][p - 1 := c];
      ClientsRankUpdate(clients[1..], p - 1, c);
    }
  }

  /** The tasks not yet sent. */
  ghost function UnsentKeys(problems: map<ProblemId, CalculationData>): set<TaskKey> {
    set p, t: nat | p in problems && t < |problems[p].dec.graph.vertices| && t !in problems[p].status :: TaskKey(p, t)
  }

  /** The steps one message costs when it is published. */
  function Readings(s: Cluster): nat {
    9 * |s.workers|
  }

  /** A bound on the steps still to come, counted stage by stage. */
  ghost function Remaining(s: Cluster): int {
    (Readings(s) + 3) * |UnsentKeys(s.problems)| + (Readings(s) + 2) * (|s.sent| - s.taken)
    + BrokerRank(s.broker, s.workers) - s.seen + ClientsRank(s.clients) + (if s.crashed then 0 else 1)
  }

  /** What the broker and the workers contribute. */
  function BrokerRank(b: BrokerState, workers: seq<WorkerState>): int {
    (9 * |workers| + 1) * |b.queue| + WorkersRank(|b.published|, workers) + |b.replied|
  }

  lemma RemainingNonNegative(s: Cluster)
    requires Counted(s)
    ensures Remaining(s) >= 0
  {
    WorkersRankNonNegative(|s.broker.published|, s.workers);
    NonNegativeProduct(Readings(s) + 3, |UnsentKeys(s.problems)|);
    NonNegativeProduct(Readings(s) + 2, |s.sent| - s.taken);
    NonNegativeProduct(Readings(s) + 1, |s.broker.queue|);
  }

  lemma NonNegativeProduct(a: nat, b: nat)
    ensures a * b >= 0
  {
  }

  // ---------- steps of the workers ----------

  lemma WorkerStepReduces(s: Cluster, w: WorkerId, worker: WorkerState)
    requires w < |s.workers| && WorkerRank(|s.broker.published|, worker) < WorkerRank(|s.broker.published|, s.workers[w])
    ensures Remaining(WithWorker(s, w, worker)) < Remaining(s)
  {
    WorkersRankUpdate(|s.broker.published|, s.workers, w, worker);
    assert BrokerRank(s.broker, s.workers[w := worker]) < BrokerRank(s.broker, s.workers);
  }

  lemma ThreadStepReduces(n: nat, s: WorkerState, i: nat, t: Thread)
    requires i < |s.threads|
    ensures WorkerRank(n, s.(threads := s.threads[i := t])) == WorkerRank(n, s) - ThreadRank(s.threads[i]) + ThreadRank(t)
  {
    ThreadsRankUpdate(s.threads, i, t);
  }

  lemma FewOperands(world: World, s: Cluster, w: WorkerId, i: nat)
    requires Sound(world, s) && HasThread(s, w, i) && s.workers[w].threads[i].Reading?
    ensures |s.workers[w].threads[i].task.operands| <= 2
  {
    var task := s.workers[w].threads[i].task;
    assert WorkerSound(world, Plans(s.clients), s.workers[w]);
    assert ThreadRight(world, Plans(s.clients), s.workers[w].threads[i]);
    assert ClientSound(world, s.clients[task.key.problem]);
  }

  lemma ReadInboxReduces(s: Cluster, w: WorkerId)
    requires w < |s.workers| && s.workers[w].cursor < |s.broker.published|
    ensures Remaining(WithWorker(s, w, Deliver(w, s.workers[w], s.broker.published[s.workers[w].cursor]))) < Remaining(s)
  {
    WorkerStepReduces(s, w, Deliver(w, s.workers[w], s.broker.published[s.workers[w].cursor]));
  }

  lemma TakeReduces(s: Cluster, w: WorkerId, i: nat)
    requires HasThread(s, w, i) && s.workers[w].threads[i].Idle? && s.workers[w].pending != []
    ensures Remaining(WithWorker(s, w, TakeTask(s.workers[w], i))) < Remaining(s)
  {
    ThreadStepReduces(|s.broker.published|, s.workers[w], i, Reading(s.workers[w].pending[0], []));
    WorkerStepReduces(s, w, TakeTask(s.workers[w], i));
  }

  lemma CrashReduces(s: Cluster)
    requires !s.crashed
    ensures Remaining(Crash(s)) < Remaining(s)
  {
  }

  lemma ReadOneReduces(world: World, s: Cluster, w: WorkerId, i: nat)
    requires Sound(world, s) && Enabled(world, s, ReadOne(w, i))
    ensures Remaining(NextReadOne(world, s, w, i)) < Remaining(s)
  {
    var t := s.workers[w].threads[i];
    var v := ReadOperand(world, s.store, NextOperand(t));
    if v.None? {
      CrashReduces(s);
    } else {
      FewOperands(world, s, w, i);
      ThreadStepReduces(|s.broker.published|, s.workers[w], i, Reading(t.task, t.got + [v.value]));
      WorkerStepReduces(s, w, GotOperand(s.workers[w], i, v.value));
    }
  }

  lemma ComputeReduces(world: World, s: Cluster, w: WorkerId, i: nat)
    requires Enabled(world, s, Compute(w, i))
    ensures Remaining(NextCompute(world, s, w, i)) < Remaining(s)
  {
    var t := s.workers[w].threads[i];
    ThreadStepReduces(|s.broker.published|, s.workers[w], i, Reporting(t.task));
    WorkerStepReduces(s, w, Stored(s.workers[w], i));
    assert Remaining(NextCompute(world, s, w, i)) == Remaining(WithWorker(s, w, Stored(s.workers[w], i)));
  }

  lemma RespondReduces(s: Cluster, w: WorkerId, i: nat)
    requires HasThread(s, w, i) && s.workers[w].threads[i].Reporting?
    ensures Remaining(WithWorker(s, w, Report(s.workers[w], i))) < Remaining(s)
  {
    ThreadStepReduces(|s.broker.published|, s.workers[w], i, Idle);
    WorkerStepReduces(s, w, Report(s.workers[w], i));
  }

  lemma OutputReduces(s: Cluster, w: WorkerId)
    requires w < |s.workers| && s.workers[w].finished != []
    ensures Remaining(WithWorker(s, w, CheckOutput(w, s.workers[w]))) < Remaining(s)
  {
    WorkerStepReduces(s, w, CheckOutput(w, s.workers[w]));
  }

  // ---------- steps of the broker ----------

  lemma OneLess(a: int, n: int)
    ensures a * (n - 1) == a * n - a && a * (n + 1) == a * n + a
  {
  }

  lemma AssignRank(b: BrokerState, workers: seq<WorkerState>, t: Task, choice: Option<WorkerId>)
    requires ValidChoice(b, choice)
    ensures BrokerRank(Assign(b, t, choice), workers) <= BrokerRank(b, workers) + 9 * |workers| + 1
  {
    WorkersRankPublish(|b.published|, workers);
    OneLess(9 * |workers| + 1, |b.queue|);
  }

  lemma RepliedRank(drain: Drain, b: BrokerState, workers: seq<WorkerState>, w: WorkerId, k: TaskKey)
    requires w in b.free
    ensures BrokerRank(Replied(drain, b, w, k), workers) <= BrokerRank(b, workers) + 1
  {
    WorkersRankPublish(|b.published|, workers);
    OneLess(9 * |workers| + 1, |b.queue|);
  }

  lemma FromManagerReduces(s: Cluster, choice: Option<WorkerId>)
    requires s.taken < |s.sent| && ValidChoice(s.broker, choice)
    ensures Remaining(s.(broker := Assign(s.broker, s.sent[s.taken], choice), taken := s.taken + 1)) < Remaining(s)
  {
    AssignRank(s.broker, s.workers, s.sent[s.taken], choice);
    OneLess(Readings(s) + 2, |s.sent| - s.taken);
  }

  lemma BrokerStepReduces(s: Cluster, broker: BrokerState, workers: seq<WorkerState>)
    requires |workers| == |s.workers| && BrokerRank(broker, workers) < BrokerRank(s.broker, s.workers)
    ensures Remaining(s.(broker := broker, workers := workers)) < Remaining(s)
  {
  }

  /** A received message no longer counts twice. */
  lemma ReceiptRank(b: BrokerState, workers: seq<WorkerState>, w: WorkerId)
    requires w < |workers| && workers[w].outbox != []
    ensures BrokerRank(b, workers[w := workers[w].(outbox := workers[w].outbox[1..])]) == BrokerRank(b, workers) - 2
  {
    WorkersRankUpdate(|b.published|, workers, w, workers[w].(outbox := workers[w].outbox[1..]));
  }

  lemma FromWorkerReduces(drain: Drain, s: Cluster, w: WorkerId)
    requires !s.crashed && w < |s.workers| && s.workers[w].outbox != []
    ensures Remaining(NextFromWorker(drain, s, w)) < Remaining(s)
  {
    var workers' := s.workers[w := s.workers[w].(outbox := s.workers[w].outbox[1..])];
    CrashReduces(s);
    ReceiptRank(s.broker, s.workers, w);
    match s.workers[w].outbox[0] {
      case CoreCount(n) =>
        if w !in s.broker.free {
          BrokerStepReduces(s, Registered(s.broker, w, n), workers');
        }
      case TaskDone(id, k) =>
        if id in s.broker.free {
          RepliedRank(drain, s.broker, workers', id, k);
          BrokerStepReduces(s, Replied(drain, s.broker, id, k), workers');
        }
    }
  }

  // ---------- steps of the manager ----------

  lemma FrameStepReduces(s: Cluster, p: ProblemId, frame: Frame)
    requires p < |s.clients| && FrameRank(frame) < FrameRank(s.clients[p].frame)
    ensures Remaining(WithFrame(s, p, frame)) < Remaining(s)
  {
    ClientsRankUpdate(s.clients, p, s.clients[p].(frame := frame));
  }

  lemma UnsentShrinks(problems: map<ProblemId, CalculationData>, ks: seq<TaskKey>, sent: set<TaskKey>)
    requires AllUnstarted(problems) && IsPass(problems, ks) && forall k :: k in sent <==> k in ks
    ensures sent <= UnsentKeys(problems) && UnsentKeys(AfterSendAll(problems)) == UnsentKeys(problems) - sent
  {
    forall k | k in sent
      ensures k in UnsentKeys(problems)
    {
      assert InFrontier(problems, k) && Unstarted(problems[k.problem]);
      assert TaskKey(k.problem, k.task) == k;
    }
    forall k: TaskKey
      ensures k in UnsentKeys(AfterSendAll(problems)) <==> k in UnsentKeys(problems) - sent
    {
      UnsentKeyAfterSend(problems, ks, k);
    }
  }

  lemma UnsentAfterSend(problems: map<ProblemId, CalculationData>, ks: seq<TaskKey>)
    requires AllUnstarted(problems) && IsPass(problems, ks)
    ensures |UnsentKeys(AfterSendAll(problems))| == |UnsentKeys(problems)| - |ks|
  {
    var sent := set k | k in ks;
    CardinalityOfDistinct(ks, sent);
    UnsentShrinks(problems, ks, sent);
  }

  lemma UnsentKeyAfterSend(problems: map<ProblemId, CalculationData>, ks: seq<TaskKey>, k: TaskKey)
    requires AllUnstarted(problems) && IsPass(problems, ks)
    ensures k in UnsentKeys(AfterSendAll(problems)) <==> k in UnsentKeys(problems) && k !in ks
  {
    assert TaskKey(k.problem, k.task) == k;
    assert k in ks <==> InFrontier(problems, k);
    if k.problem in problems {
      assert Unstarted(problems[k.problem]);
    }
  }

  lemma SendReduces(s: Cluster, ks: seq<TaskKey>, tasks: seq<Task>)
    requires Counted(s) && IsPass(s.problems, ks) && |tasks| == |ks| > 0
    ensures Remaining(s.(problems := AfterSendAll(s.problems), sent := s.sent + tasks)) < Remaining(s)
  {
    UnsentAfterSend(s.problems, ks);
    Shift(Readings(s) + 2, |UnsentKeys(s.problems)|, |s.sent| - s.taken, |ks|);
  }

  lemma Shift(a: int, u: int, w: int, k: int)
    ensures (a + 1) * (u - k) + a * (w + k) == (a + 1) * u + a * w - k
  {
  }

  lemma ReplyReduces(s: Cluster)
    requires !s.crashed && s.seen < |s.broker.replied|
    ensures Remaining(NextReply(s)) < Remaining(s)
  {
    var p, t := s.broker.replied[s.seen].problem, s.broker.replied[s.seen].task;
    CrashReduces(s);
    if p in s.problems && t in s.problems[p].status {
      var problems' := s.problems[p := OnReply(s.problems[p], t)];
      assert OnReply(s.problems[p], t).status.Keys == s.problems[p].status.Keys;
      assert UnsentKeys(problems') == UnsentKeys(s.problems);
      if p < |s.clients| {
        ClientsRankUpdate(s.clients, p, s.clients[p].(frame := Waiting(true)));
      }
    }
  }

  lemma FewerUnsent(problems: map<ProblemId, CalculationData>, p: ProblemId)
    ensures |UnsentKeys(problems - {p})| <= |UnsentKeys(problems)|
  {
    var fewer, all := UnsentKeys(problems - {p}), UnsentKeys(problems);
    assert fewer <= all;
    assert |all - fewer| == |all| - |fewer|;
  }

  lemma ForgetReduces(s: Cluster, p: ProblemId)
    ensures Remaining(s.(problems := s.problems - {p}, sync := s.sync - {p})) <= Remaining(s)
  {
    FewerUnsent(s.problems, p);
    Grows(Readings(s) + 3, |UnsentKeys(s.problems - {p})|, |UnsentKeys(s.problems)|);
  }

  lemma ClearReduces(s: Cluster, p: ProblemId)
    requires p < |s.clients| && s.clients[p].frame.Waiting?
    ensures Remaining(WithFrame(s, p, Cleared).(problems := s.problems - {p}, sync := s.sync - {p})) < Remaining(s)
  {
    FrameStepReduces(s, p, Cleared);
    ForgetReduces(WithFrame(s, p, Cleared), p);
  }

  lemma Grows(a: nat, m: nat, n: nat)
    requires m <= n
    ensures a * m <= a * n
  {
  }

  lemma ClientStepReduces(drain: Drain, world: World, s: Cluster, a: Action)
    requires Enabled(world, s, a) && (a.Clear? || a.Fetch? || a.Finish?)
    ensures Remaining(Next(drain, world, s, a)) < Remaining(s)
  {
    CrashReduces(s);
    match a {
      case Clear(p) => ClearReduces(s, p);
      case Fetch(p) =>
        var tasks := s.clients[p].dec.tasks;
        if tasks != [] && TaskKey(p, tasks[|tasks| - 1]) in s.store {
          FrameStepReduces(s, p, Fetched(s.store[TaskKey(p, tasks[|tasks| - 1])]));
        }
      case Finish(p) => FrameStepReduces(s, p, Returned(s.clients[p].frame.v));
    }
  }

  // ---------- every step ----------

  /** Every step that is not an arrival and not an empty pass reduces the measure. */
  lemma StepReducesRemaining(drain: Drain, world: World, s: Cluster, a: Action)
    requires Counted(s) && Sound(world, s) && Enabled(world, s, a) && Internal(a) && !IsIdle(a)
    ensures Remaining(Next(drain, world, s, a)) < Remaining(s)
  {
    match a {
      case Reply => ReplyReduces(s);
      case FromWorker(w) => FromWorkerReduces(drain, s, w);
      case ReadInbox(w) => ReadInboxReduces(s, w);
      case Take(w, i) => TakeReduces(s, w, i);
      case ReadOne(w, i) => ReadOneReduces(world, s, w, i);
      case Compute(w, i) => ComputeReduces(world, s, w, i);
      case Respond(w, i) => RespondReduces(s, w, i);
      case Output(w) => OutputReduces(s, w);
      case FromManager(choice) => FromManagerReduces(s, choice);
      case Send(ks, tasks) => SendReduces(s, ks, tasks);
      case _ => ClientStepReduces(drain, world, s, a);
    }
  }

  lemma {:induction false} StepsReduce(drain: Drain, world: World, run: seq<Action>, s: Cluster, steps: seq<Action>, end: Cluster)
    requires Run(drain, world, run) == Some(s) && Continue(drain, world, s, steps) == Some(end) && AllSteps(steps)
    ensures Remaining(end) + |steps| <= Remaining(s)
    decreases |steps|
  {
    if steps != [] {
      var front, last := steps[..|steps| - 1], steps[|steps| - 1];
      var s1 := Continue(drain, world, s, front).value;
      StepsReduce(drain, world, run, s, front, s1);
      RunContinues(drain, world, run, s, front);
      RunIsSound(drain, world, run + front);
      RunIsCounted(drain, world, run + front);
      StepReducesRemaining(drain, world, s1, last);
    }
  }

  /** From any state reached, without new arrivals the system can take at most so many steps. */
  lemma StepsAreBounded(drain: Drain, world: World, run: seq<Action>, s: Cluster, steps: seq<Action>)
    requires Run(drain, world, run) == Some(s) && Continue(drain, world, s, steps).Some? && AllSteps(steps)
    ensures |steps| <= Remaining(s)
  {
    var end := Continue(drain, world, s, steps).value;
    StepsReduce(drain, world, run, s, steps, end);
    RunContinues(drain, world, run, s, steps);
    RunIsCounted(drain, world, run + steps);
    RemainingNonNegative(end);
  }
}
