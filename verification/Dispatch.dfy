/** The dispatcher: per problem, a status for every started task and a cached frontier of the
    tasks that may be sent next.
 */
module Dispatch {
  import opened Domain
  import opened Expression
  import opened ValueNumbering
  import opened Sharing
  import opened Decomposition
  import D = Decomposition

  type ProblemId = nat

  datatype TaskStatus = Processing | Completed

  datatype TaskKey = TaskKey(problem: ProblemId, task: TaskId)

  datatype Operand = StaticOperand(id: VariableId) | DynOperand(key: TaskKey)

  datatype Task = Task(key: TaskKey, etype: ExprType, operands: seq<Operand>)

  datatype CalculationData = CalculationData(
    dec: Decompositor,
    status: map<TaskId, TaskStatus>,
    names: map<TaskId, VariableId>,
    computable: map<TaskId, seq<TaskId>>)

  function With(status: map<TaskId, TaskStatus>, s: TaskStatus): set<TaskId> {
    set t | t in status && status[t] == s
  }

  function AllCompleted(ts: set<TaskId>): map<TaskId, TaskStatus> {
    map t | t in ts :: Completed
  }

  /** Variables are completed from the start; the frontier follows from them. */
  function Start(d: Decompositor): CalculationData {
    var names := VariableNames(d.graph);
    CalculationData(d, AllCompleted(names.Keys), names, Computable(d.graph, names.Keys, {}))
  }

  function Marked(status: map<TaskId, TaskStatus>, sent: set<TaskId>): map<TaskId, TaskStatus> {
    map t | t in status.Keys + sent :: if t in sent then Processing else status[t]
  }

  /** Every frontier task becomes processing and the frontier is emptied. */
  function AfterSend(c: CalculationData): CalculationData {
    c.(status := Marked(c.status, c.computable.Keys), computable := map[])
  }

  /** A task other than the root completes: the frontier is recomputed from the statuses. */
  function AfterReply(c: CalculationData, t: TaskId): CalculationData {
    var status := c.status[t := Completed];
    c.(status := status, computable := Computable(c.dec.graph, With(status, Completed), With(status, Processing)))
  }

  /** The root completes: only its status changes. */
  function AfterRootReply(c: CalculationData, t: TaskId): CalculationData {
    c.(status := c.status[t := Completed])
  }

  predicate IsLast(c: CalculationData, t: TaskId) {
    c.dec.tasks != [] && t == c.dec.tasks[|c.dec.tasks| - 1]
  }

  function OnReply(c: CalculationData, t: TaskId): CalculationData {
    if IsLast(c, t) then AfterRootReply(c, t) else AfterReply(c, t)
  }

  function FormOperand(p: ProblemId, names: map<TaskId, VariableId>, o: TaskId): Operand {
    if o in names then StaticOperand(names[o]) else DynOperand(TaskKey(p, o))
  }

  function FormOperands(p: ProblemId, names: map<TaskId, VariableId>, deps: seq<TaskId>): (r: seq<Operand>)
    ensures |r| == |deps| && forall k :: 0 <= k < |deps| ==> r[k] == FormOperand(p, names, deps[k])
  {
    seq(|deps|, k requires 0 <= k < |deps| => FormOperand(p, names, deps[k]))
  }

  /** The request for task t of problem p. */
  function FormTask(p: ProblemId, c: CalculationData, t: TaskId, deps: seq<TaskId>): Task
    requires t < |c.dec.graph.vertices|
  {
    Task(TaskKey(p, t), c.dec.graph.vertices[t].etype, FormOperands(p, c.names, deps))
  }

  // ---------- one pass over all problems ----------

  ghost predicate InRange(c: CalculationData) {
    forall t :: t in c.computable ==> t < |c.dec.graph.vertices|
  }

  predicate InFrontier(problems: map<ProblemId, CalculationData>, k: TaskKey) {
    && k.problem in problems
    && k.task in problems[k.problem].computable
    && k.task < |problems[k.problem].dec.graph.vertices|
  }

  function RequestOf(problems: map<ProblemId, CalculationData>, k: TaskKey): Task
    requires InFrontier(problems, k)
  {
    FormTask(k.problem, problems[k.problem], k.task, problems[k.problem].computable[k.task])
  }

  /** tasks are the requests for the frontier tasks ks, in the same order. */
  ghost predicate AreRequests(problems: map<ProblemId, CalculationData>, ks: seq<TaskKey>, tasks: seq<Task>) {
    && |tasks| == |ks|
    && forall i :: 0 <= i < |ks| ==> InFrontier(problems, ks[i]) && tasks[i] == RequestOf(problems, ks[i])
  }

  ghost predicate OldestFirst(ks: seq<TaskKey>) {
    forall i, j :: 0 <= i < j < |ks| ==> ks[i].problem <= ks[j].problem
  }

  /** The keys of one pass: every frontier task of every problem exactly once, older problems first. */
  ghost predicate IsPass(problems: map<ProblemId, CalculationData>, ks: seq<TaskKey>) {
    && Distinct(ks)
    && OldestFirst(ks)
    && forall k :: k in ks <==> InFrontier(problems, k)
  }

  function AfterSendAll(problems: map<ProblemId, CalculationData>): map<ProblemId, CalculationData> {
    map p | p in problems :: AfterSend(problems[p])
  }

  class SyncData {
    var isComputed: bool

    constructor ()
      ensures !isComputed
    {
      isComputed := false;
    }
  }

  lemma CompletedOneMore(ts: set<TaskId>, t: TaskId)
    ensures AllCompleted(ts)[t := Completed] == AllCompleted(ts + {t})
  {
  }

  method MarkVariables(names: map<TaskId, VariableId>) returns (status: map<TaskId, TaskStatus>, computed: set<TaskId>)
    ensures status == AllCompleted(names.Keys)
    ensures computed == names.Keys
  {
    status, computed := map[], {};
    var left := names.Keys;
    while left != {}
      invariant left <= names.Keys && computed == names.Keys - left
      invariant status == AllCompleted(computed)
      decreases |left|
    {
      var t :| t in left;
      CompletedOneMore(computed, t);
      status := status[t := Completed];
      computed := computed + {t};
      left := left - {t};
    }
    assert computed == names.Keys;
  }

  method FromDecompositor(d: Decompositor) returns (r: Option<CalculationData>)
    requires D.Valid(d)
    ensures r.None? <==> HasConstant(d.graph)
    ensures r.Some? ==> r.value == Start(d)
  {
    var names := GetIndependentTasks(d);
    if names.None? {
      return None;
    }
    var status, computed := MarkVariables(names.value);
    var computable := GetComputableTasks(d, computed, {});
    r := Some(CalculationData(d, status, names.value, computable));
  }

  /** CalculationData::New: fails exactly on the ASTs with a scalar_const leaf. */
  method NewCalculationData(ast: Expr) returns (r: Option<CalculationData>)
    ensures r.None? <==> !NoConstants(ast)
    ensures r.Some? ==> r.value == Start(r.value.dec) && D.Valid(r.value.dec) && r.value.dec.graph == DagOf(ast) && PlanFor(r.value.dec.graph, ast)
  {
    var d := D.New(ast);
    r := FromDecompositor(d);
  }

  lemma MarkOne(status: map<TaskId, TaskStatus>, done: set<TaskId>, t: TaskId)
    ensures Marked(status, done)[t := Processing] == Marked(status, done + {t})
  {
  }

  /** ks names each frontier task of c, outside left, exactly once. */
  ghost predicate Covers(p: ProblemId, c: CalculationData, left: set<TaskId>, ks: seq<TaskKey>) {
    && Distinct(ks)
    && forall k :: k in ks <==> k.problem == p && k.task in c.computable && k.task !in left
  }

  ghost predicate AreRequestsOf(p: ProblemId, c: CalculationData, ks: seq<TaskKey>, tasks: seq<Task>) {
    && |tasks| == |ks|
    && forall i :: 0 <= i < |ks| ==> IsRequestOf(p, c, ks[i], tasks[i])
  }

  ghost predicate IsRequestOf(p: ProblemId, c: CalculationData, k: TaskKey, task: Task) {
    && k.problem == p && k.task in c.computable && k.task < |c.dec.graph.vertices|
    && task == FormTask(p, c, k.task, c.computable[k.task])
  }

  /** Midway through a problem: the tasks outside left have been sent and marked. */
  ghost predicate Midway(p: ProblemId, c0: CalculationData, c: CalculationData, left: set<TaskId>, ks: seq<TaskKey>, tasks: seq<Task>) {
    && left <= c0.computable.Keys
    && c == c0.(status := Marked(c0.status, c0.computable.Keys - left))
    && Covers(p, c0, left, ks)
    && AreRequestsOf(p, c0, ks, tasks)
  }

  function SendOne(p: ProblemId, c: CalculationData, t: TaskId): (Task, CalculationData)
    requires t in c.computable && t < |c.dec.graph.vertices|
  {
    (FormTask(p, c, t, c.computable[t]), c.(status := c.status[t := Processing]))
  }

  lemma MidwayStarts(p: ProblemId, c: CalculationData)
    ensures Midway(p, c, c, c.computable.Keys, [], [])
  {
    assert c.computable.Keys - c.computable.Keys == {};
    assert Marked(c.status, {}) == c.status;
  }

  lemma MidwayAdvances(p: ProblemId, c0: CalculationData, c: CalculationData, left: set<TaskId>, ks: seq<TaskKey>, tasks: seq<Task>, t: TaskId)
    requires InRange(c0) && Midway(p, c0, c, left, ks, tasks) && t in left
    ensures Midway(p, c0, SendOne(p, c, t).1, left - {t}, ks + [TaskKey(p, t)], tasks + [SendOne(p, c, t).0])
  {
    assert TaskKey(p, t) !in ks;
    assert IsRequestOf(p, c0, TaskKey(p, t), SendOne(p, c, t).0);
    MarkOne(c0.status, c0.computable.Keys - left, t);
    assert c0.computable.Keys - (left - {t}) == c0.computable.Keys - left + {t};
  }

  method FormTaskRequest(p: ProblemId, c: CalculationData, t: TaskId, deps: seq<TaskId>) returns (task: Task)
    requires t < |c.dec.graph.vertices|
    ensures task == FormTask(p, c, t, deps)
    ensures task.key == TaskKey(p, t) && task.etype == c.dec.graph.vertices[t].etype && |task.operands| == |deps|
    ensures forall k :: 0 <= k < |deps| ==>
              task.operands[k] == if deps[k] in c.names then StaticOperand(c.names[deps[k]]) else DynOperand(TaskKey(p, deps[k]))
  {
    var operands: seq<Operand> := [];
    for i := 0 to |deps|
      invariant |operands| == i
      invariant forall k :: 0 <= k < i ==> operands[k] == FormOperand(p, c.names, deps[k])
    {
      operands := operands + [FormOperand(p, c.names, deps[i])];
    }
    task := Task(TaskKey(p, t), c.dec.graph.vertices[t].etype, operands);
  }

  /** The requests of one problem, in whatever order its map iterates. */
  method SendFrontier(p: ProblemId, c0: CalculationData) returns (c: CalculationData, ghost ks: seq<TaskKey>, tasks: seq<Task>)
    requires InRange(c0)
    ensures c == AfterSend(c0)
    ensures Covers(p, c0, {}, ks) && AreRequestsOf(p, c0, ks, tasks)
  {
    c, ks, tasks := c0, [], [];
    var left := c0.computable.Keys;
    MidwayStarts(p, c0);
    while left != {}
      invariant Midway(p, c0, c, left, ks, tasks)
      decreases |left|
    {
      var t :| t in left;
      MidwayAdvances(p, c0, c, left, ks, tasks, t);
      var task := FormTaskRequest(p, c, t, c.computable[t]);
      tasks, ks, left := tasks + [task], ks + [TaskKey(p, t)], left - {t};
      c := c.(status := c.status[t := Processing]);
    }
    assert c0.computable.Keys - left == c0.computable.Keys;
    c := c.(computable := map[]);
  }

  ghost function Older(problems: map<ProblemId, CalculationData>, p: ProblemId): map<ProblemId, CalculationData> {
    map q | q in problems && q < p :: problems[q]
  }

  ghost predicate PassUpTo(problems: map<ProblemId, CalculationData>, p: ProblemId, ks: seq<TaskKey>) {
    IsPass(Older(problems, p), ks)
  }

  /** The problems older than p have had their frontier sent. */
  ghost function SentUpTo(problems: map<ProblemId, CalculationData>, p: ProblemId): map<ProblemId, CalculationData> {
    map q | q in problems :: if q < p then AfterSend(problems[q]) else problems[q]
  }

  lemma SentOneMore(problems: map<ProblemId, CalculationData>, p: ProblemId)
    ensures p in problems ==> SentUpTo(problems, p)[p := AfterSend(problems[p])] == SentUpTo(problems, p + 1)
    ensures p !in problems ==> SentUpTo(problems, p) == SentUpTo(problems, p + 1)
  {
  }

  lemma PassSkips(problems: map<ProblemId, CalculationData>, p: ProblemId, ks: seq<TaskKey>)
    requires PassUpTo(problems, p, ks) && p !in problems
    ensures PassUpTo(problems, p + 1, ks)
  {
    assert Older(problems, p + 1) == Older(problems, p);
  }

  lemma PassGrows(problems: map<ProblemId, CalculationData>, p: ProblemId, ks: seq<TaskKey>, part: seq<TaskKey>)
    requires PassUpTo(problems, p, ks) && p in problems && InRange(problems[p])
    requires Covers(p, problems[p], {}, part)
    ensures PassUpTo(problems, p + 1, ks + part)
  {
    forall i | 0 <= i < |ks|
      ensures ks[i].problem < p
    {
      assert ks[i] in ks;
    }
    assert forall i :: 0 <= i < |part| ==> part[i] in part && part[i].problem == p;
    forall k
      ensures k in ks + part <==> InFrontier(Older(problems, p + 1), k)
    {
      if k.problem == p {
        assert k !in ks;
      } else {
        assert InFrontier(Older(problems, p + 1), k) <==> InFrontier(Older(problems, p), k);
      }
    }
  }

  lemma RequestsGrow(problems: map<ProblemId, CalculationData>, p: ProblemId,
                     ks: seq<TaskKey>, part: seq<TaskKey>, tasks: seq<Task>, more: seq<Task>)
    requires p in problems
    requires AreRequests(problems, ks, tasks) && AreRequestsOf(p, problems[p], part, more)
    ensures AreRequests(problems, ks + part, tasks + more)
  {
    assert forall i :: 0 <= i < |part| ==> IsRequestOf(p, problems[p], part[i], more[i]);
  }

  /** Midway through a pass: the problems older than p are done. */
  ghost predicate Passing(before: map<ProblemId, CalculationData>, p: ProblemId, now: map<ProblemId, CalculationData>, ks: seq<TaskKey>, tasks: seq<Task>) {
    now == SentUpTo(before, p) && PassUpTo(before, p, ks) && AreRequests(before, ks, tasks)
  }

  lemma PassingStarts(before: map<ProblemId, CalculationData>)
    ensures Passing(before, 0, before, [], [])
  {
  }

  lemma PassingAdvances(before: map<ProblemId, CalculationData>, p: ProblemId, now: map<ProblemId, CalculationData>, ks: seq<TaskKey>, tasks: seq<Task>,
                        part: seq<TaskKey>, requests: seq<Task>)
    requires Passing(before, p, now, ks, tasks) && p in before && InRange(before[p])
    requires Covers(p, before[p], {}, part) && AreRequestsOf(p, before[p], part, requests)
    ensures Passing(before, p + 1, now[p := AfterSend(before[p])], ks + part, tasks + requests)
  {
    PassGrows(before, p, ks, part);
    RequestsGrow(before, p, ks, part, tasks, requests);
    SentOneMore(before, p);
  }

  lemma PassingSkips(before: map<ProblemId, CalculationData>, p: ProblemId, now: map<ProblemId, CalculationData>, ks: seq<TaskKey>, tasks: seq<Task>)
    requires Passing(before, p, now, ks, tasks) && p !in before
    ensures Passing(before, p + 1, now, ks, tasks)
  {
    PassSkips(before, p, ks);
    SentOneMore(before, p);
  }

  lemma PassingEnds(before: map<ProblemId, CalculationData>, n: ProblemId, now: map<ProblemId, CalculationData>, ks: seq<TaskKey>, tasks: seq<Task>)
    requires Passing(before, n, now, ks, tasks) && forall p :: p in before ==> p < n
    ensures now == AfterSendAll(before) && IsPass(before, ks) && AreRequests(before, ks, tasks)
  {
    assert Older(before, n) == before;
  }

  /** One pass over the problems in the order of their ids. */
  method SendAll(before: map<ProblemId, CalculationData>, n: ProblemId) returns (now: map<ProblemId, CalculationData>, ghost ks: seq<TaskKey>, tasks: seq<Task>)
    requires forall p :: p in before ==> p < n && InRange(before[p])
    ensures now == AfterSendAll(before) && IsPass(before, ks) && AreRequests(before, ks, tasks)
  {
    now, ks, tasks := before, [], [];
    PassingStarts(before);
    for p := 0 to n
      invariant Passing(before, p, now, ks, tasks)
    {
      if p in before {
        var c, part, requests := SendFrontier(p, before[p]);
        PassingAdvances(before, p, now, ks, tasks, part, requests);
        now, ks, tasks := now[p := c], ks + part, tasks + requests;
      } else {
        PassingSkips(before, p, now, ks, tasks);
      }
    }
    PassingEnds(before, n, now, ks, tasks);
  }

  class Dispatcher {
    var problems: map<ProblemId, CalculationData>
    var sync: map<ProblemId, SyncData>
    var nextId: ProblemId
    var sent: seq<Task>

    ghost predicate Valid()
      reads this
    {
      && (forall p :: p in problems ==> p < nextId && D.Valid(problems[p].dec) && InRange(problems[p]))
      && (forall p :: p in sync ==> p < nextId)
    }

    constructor ()
      ensures Valid() && problems == map[] && sync == map[] && nextId == 0 && sent == []
    {
      problems, sync, nextId, sent := map[], map[], 0, [];
    }

    method PushProblem(c: CalculationData, syncData: SyncData) returns (p: ProblemId)
      requires Valid() && D.Valid(c.dec) && InRange(c)
      modifies this
      ensures Valid()
      ensures p == old(nextId) && nextId == p + 1
      ensures p !in old(problems) && p !in old(sync)
      ensures problems == old(problems)[p := c] && sync == old(sync)[p := syncData] && sent == old(sent)
    {
      p := nextId;
      problems := problems[p := c];
      sync := sync[p := syncData];
      nextId := nextId + 1;
    }

    method ClearProblem(p: ProblemId)
      requires Valid()
      modifies this
      ensures Valid()
      ensures problems == old(problems) - {p} && sync == old(sync) - {p} && nextId == old(nextId) && sent == old(sent)
    {
      problems := problems - {p};
      sync := sync - {p};
    }

    /** One pass of sending: the problems in the order of their ids. */
    method SendComputableTasks() returns (ghost ks: seq<TaskKey>)
      requires Valid()
      modifies this
      ensures Valid() && sync == old(sync) && nextId == old(nextId)
      ensures problems == AfterSendAll(old(problems))
      ensures |old(sent)| <= |sent| && sent[..|old(sent)|] == old(sent)
      ensures IsPass(old(problems), ks) && AreRequests(old(problems), ks, sent[|old(sent)|..])
    {
      var now, requests;
      now, ks, requests := SendAll(problems, nextId);
      problems, sent := now, sent + requests;
      assert sent[|old(sent)|..] == requests;
    }

    /** Recomputes the frontier of p after task t; false where a lookup would throw. */
    method UpdateComputableTasksImpl(p: ProblemId, t: TaskId) returns (ok: bool)
      requires Valid() && p in problems
      modifies this
      ensures Valid() && sync == old(sync) && nextId == old(nextId) && sent == old(sent)
      ensures ok <==> t in old(problems)[p].status
      ensures problems == if ok then old(problems)[p := AfterReply(old(problems)[p], t)] else old(problems)
    {
      var c := problems[p];
      if t !in c.status {
        return false;
      }
      c := c.(status := c.status[t := Completed]);
      var computed: set<TaskId>, excluded: set<TaskId> := {}, {};
      var left := c.status.Keys;
      while left != {}
        invariant left <= c.status.Keys
        invariant forall v :: v in computed <==> v in c.status && v !in left && c.status[v] == Completed
        invariant forall v :: v in excluded <==> v in c.status && v !in left && c.status[v] == Processing
        decreases |left|
      {
        var v :| v in left;
        match c.status[v] {
          case Processing => excluded := excluded + {v};
          case Completed => computed := computed + {v};
        }
        left := left - {v};
      }
      assert computed == With(c.status, Completed) && excluded == With(c.status, Processing);
      var computable := GetComputableTasks(c.dec, computed, excluded);
      problems := problems[p := c.(computable := computable)];
      ok := true;
    }

    /** Marks the root completed and wakes the waiter; false where a lookup would throw. */
    method NotifyComputedProblem(p: ProblemId, t: TaskId) returns (ok: bool)
      requires Valid() && p in problems
      modifies this, sync.Values
      ensures Valid() && sync == old(sync) && nextId == old(nextId) && sent == old(sent)
      ensures ok <==> t in old(problems)[p].status && p in sync
      ensures problems == if t in old(problems)[p].status then old(problems)[p := AfterRootReply(old(problems)[p], t)] else old(problems)
      ensures ok ==> sync[p].isComputed
      ensures forall q :: q in sync && (!ok || sync[q] != sync[p]) ==> sync[q].isComputed == old(sync[q].isComputed)
    {
      var c := problems[p];
      if t !in c.status {
        return false;
      }
      problems := problems[p := c.(status := c.status[t := Completed])];
      if p !in sync {
        return false;
      }
      sync[p].isComputed := true;
      ok := true;
    }

    method UpdateComputableTasks(reply: Option<TaskKey>) returns (ok: bool)
      requires Valid()
      modifies this, sync.Values
      ensures Valid() && sync == old(sync) && nextId == old(nextId) && sent == old(sent)
      ensures reply.None? ==> ok && problems == old(problems) && forall q :: q in sync ==> sync[q].isComputed == old(sync[q].isComputed)
      ensures reply.Some? ==>
                var p, t := reply.value.problem, reply.value.task;
                && (ok <==> p in old(problems) && t in old(problems)[p].status && (IsLast(old(problems)[p], t) ==> p in sync))
                && problems == (if p in old(problems) && t in old(problems)[p].status then old(problems)[p := OnReply(old(problems)[p], t)] else old(problems))
                && (ok && IsLast(old(problems)[p], t) ==> sync[p].isComputed)
                && (forall q :: q in sync && (!ok || !IsLast(old(problems)[p], t) || sync[q] != sync[p]) ==> sync[q].isComputed == old(sync[q].isComputed))
    {
      if reply.None? {
        return true;
      }
      var p, t := reply.value.problem, reply.value.task;
      if p !in problems {
        return false;
      }
      if t == problems[p].dec.tasks[|problems[p].dec.tasks| - 1] {
        ok := NotifyComputedProblem(p, t);
      } else {
        ok := UpdateComputableTasksImpl(p, t);
      }
    }
  }
}
