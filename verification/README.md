# Verified model of the distributed expression evaluator

The system computes an abstract syntax tree (AST) over lists and scalars on a cluster of workers.
The manager turns the AST into a graph that shares equal subtrees, and a dispatcher sends every
operation of the graph, once its operands are computed, to a broker. The broker passes it to a
worker with a free core or queues it. A thread of that worker reads the operands from the result
store, computes, stores the result and replies; the reply of the root wakes the client.

The project models this pipeline from the AST to the answer, each part in the form of its source
file, composes the parts into one state machine (`Cluster.dfy`), and proves what every run of that
machine keeps. The broker's drain is modelled as it is written and as a first-in first-out queue, and
each result says for which it holds. The main results:

- **Answers are right** (`Results.ReturnedValueIsEval`, `Results.ReturnedValueIsDenoted`): in every run
  of the code as written, under every interleaving of clients, dispatcher, broker, workers, threads and
  store, a call that returns, returns what plain recursive evaluation of its AST gives; with the worker's
  operations that is the value the AST denotes, said by its constructors and arithmetic alone
  (`Meaning.Denotes`).
- **The system comes to rest** (`Termination.StepsAreBounded`): from every state of every run, the
  steps without new arrivals are bounded by one measure, with either drain.
- **When everything is answered** (`Progress.EveryProblemIsAnswered`, `Progress.WrittenRunAnswersIff`):
  if each worker has at least two cores and every problem asked has a value, then at rest every problem
  with an operation at its root has returned if and only if no drain of the run found two tasks queued
  (for the first-in first-out drain: always).
- **Which loads are answered**: the code as written answers, whatever the schedule, all loads in which
  no more than n operations can be outstanding at once, if and only if every worker has at least two
  cores and at least n (`Headroom.WrittenAnswersIff`). For given problems in which no operation's result
  is used twice, it loses no task and answers all, if and only if no worker has fewer cores than they
  have operations on variables alone (`Headroom.WrittenLoadIff`, `Width.UnsharedOpensWide`); a problem
  that goes in stages may need fewer (`Stages.WidthIsNotNeeded`). So no workers are enough for an
  unbounded load (`Overload.NoStaffingSuffices`); where no drain loses a task, two cores everywhere are
  (`Stranded.AnsweredIffTwoCores`).
- **When the system crashes** (`Collapse.WrittenCrashIff`): with problems that have a value, some run
  of the code as written ends in an uncaught exception if and only if some worker has two cores. No run
  crashes that loses no task (`Results.NeverCrashes`), nor any in which a problem is cleared only once
  nothing of it is in flight (`Patience.PatientRunNeverCrashes`).
- **What every run keeps**, with either drain: free cores plus tasks at a worker are its capacity
  (`Capacity.CapacityIsConserved`), no task is requested twice (`Ledger.DispatchedExactlyOnce`), every
  cached frontier holds exactly the tasks that are ready (`Ledger.FrontierCacheAgrees`), and every
  published copy of a task is at a worker or has been answered (`Conservation.PublicationsBalance`). A task is in flight
  exactly if its request and the copies made of it outnumber its answers and the times it was dropped
  (`Losses.InFlightIff`), so a drain loses the oldest task and no other
  (`Losses.OnlyTheOldestIsLost`). Each worker takes its tasks in the order published and answers in the
  order reported (`Order.TasksAreTakenInOrder`, `Order.AnswersLeaveInOrder`).
- **Each task once** (`Safety.RunKeeps`): in every run that loses no task, every task is also computed
  and answered exactly once, and the root's reply comes last. The runs that do lose a task are described
  by `LostTasks.dfy`: its problem is never answered, whatever follows.
- **Sharing** loses nothing, shares as much as possible and preserves meaning (`Sharing.dfy`).
- **Locks** around a waiting client are free of deadlock, lost wake-ups and dangling references
  (`Waiters.dfy`), and every run of the composed system that has not crashed is a run of that lock
  machine (`Handshake.ClusterRunsAreLockRuns`).
- **The multipart codec** decodes exactly the bytes that are parts behind their sizes, and round-trips
  (`Codec.dfy`).

Files, bottom up: `Domain` (arithmetic), `Expression`, `Meaning` (what an expression denotes),
`ValueNumbering`, `Sharing`, `Decomposition`, `Dispatch`, `Frontier` (one problem), `Broker`, `Worker`,
`Cluster` (the composition); `Capacity`, `Order`, `Soundness`, `Ledger`, `Termination`, `AllRuns`,
`Conservation`, `Losses` (what every run keeps with either drain); `Places`, `Pipeline`, `Desk`, `Log`
and `Safety` (the invariant of every run that loses no task: where each task is, the broker and worker
side, the manager and store side, the histories, and their assembly); `Results`, `LostTasks`,
`Liveness`, `Progress` (what follows); `Patience`, `Stranded`, `Overload`, `Collapse`, `Width`,
`Headroom`, `Stages` (which runs of the code as written end how); `Waiters` and `Handshake` (the locks);
`Codec`.

## How to read the statements

A `World` is what an operation computes from its operands, and the stored variables. Every result
about runs holds for every world; `Results.ReturnedValueIsWorkersEval` is the instance with the
worker's own operations, `Domain.Apply`. An operation without a defined C++ result (signed overflow,
division by zero, unequal lengths, operands of the wrong kind) is `None`.

`Run(drain, world, run)` is the state after a sequence of atomic steps, `None` if one of them is not
possible. `Reached` covers the runs that lose no task: every run with a first-in first-out drain, and
every run with the drain as written in which each drain finds one task queued. `crashed` says that an
exception nobody catches has ended one of the processes; a run ends there. `AtRest` says that the system
is up and no step is possible but arrivals and passes of the dispatcher that find nothing to send. Each
lock-protected block, message receipt and store request is one step, and each operand a thread reads
is a step of its own. The insert of a result whose key exists leaves the store as it is and stops
nobody, since the client of the database drops the status.

The worst places of the code are kept as they are:

- `Broker::SendTaskToWorkerFromQueue` reads the back of the queue and pops its front
  (`broker/src/broker-impl/broker_impl.cpp:133-134`), while the repository's README says that the
  broker queues tasks. Both drains are modelled.
- Registering a worker does not make the broker look at its queue
  (`broker/src/broker-impl/broker_impl.cpp:105-116`), and a worker with one core advertises none, so a
  task can wait for ever beside a free core, while the repository's README says that new workers can
  connect at runtime.
- The list reductions `Min` and `Max` both return the first element (`common/domain/domain.cpp:37-39`).
- A `scalar_const` leaf makes `GetIndependentTasks` throw
  (`manager/src/decomposition/decomposition.cpp:41-45`), so such an AST is never admitted.
- An AST that is a single variable is completed at once and its caller never notified
  (`manager/src/dispatch/dispatch.cpp:165-174`).
- A worker whose `CORE_COUNT` is 0 advertises 2^32 - 1 cores
  (`worker/src/worker-impl/worker_impl.cpp:76`).

## Model

| member | source | states |
|---|---|---|
| `Domain.TruncDivRoundsTowardZero` | common/domain/domain.cpp:33 | The modelled division is the one quotient that C++ gives: the fraction dropped, the sign of the exact quotient. |
| `Domain.ApplyMeets` | worker/src/worker-impl/thread_pool.cpp:118-165 | An operation on two operands yields a value if and only if that value relates to them as the operation's name says (sum, product, quotient of left by right, larger, smaller), scalar by scalar, position by position, or every position with the one scalar, without overflow. |
| `Domain.SumDefinedIff` | common/domain/domain.cpp:25-29 | A list sum is defined exactly when no order and no bracketing of the elements and the initial 0 overflows. |
| `Domain.SumUnderAnyArrangement` | common/domain/domain.cpp:25-29 | Every order and bracketing `std::reduce` may choose gives the modelled sum. |
| `Domain.ProductDefinedIff` | common/domain/domain.cpp:19-23 | A list product is defined exactly when no order and no bracketing of the elements and the initial 1 overflows. |
| `Domain.ProductUnderAnyArrangement` | common/domain/domain.cpp:19-23 | Every order and bracketing `std::reduce` may choose gives the modelled product. |
| `Domain.ElementwiseLoop` | common/domain/domain.cpp:69-103 | The index loops over two lists compute the position-by-position operation, undefined for unequal lengths or an undefined position. |
| `Domain.InnerProductLoop` | common/domain/domain.cpp:43-46 | The accumulating loop computes the left fold with every partial result an int. |
| `Domain.DotIsSumOfProducts` | common/domain/domain.cpp:43-46 | An inner product is defined exactly if every product and every sum of the first of them is an int, and is then the sum of the products. |
| `Domain.ApplyGives` | worker/src/worker-impl/thread_pool.cpp:95-172 | For every type code and every operands: the worker's case split yields a value if and only if that value is what the code stands for makes of the first and the last operand, sizes, reductions and inner products included; it yields none for operands of the wrong kind, unequal lengths, overflow and codes of variables. |
| `Domain.ListExtremaIff` | common/domain/domain.cpp:37-39 | The list reductions called minimum and maximum are right exactly on the lists whose first element is the least, respectively the greatest. |
| `Domain.ListExtremaCounterexample` | common/domain/domain.cpp:37-39 | Lists on which they are wrong. |
| `Expression.EqualIsStructural` | manager/src/decomposition/expression.cpp:51-60 | The recursive comparison of two nodes holds exactly for structurally equal trees. |
| `Expression.NewOfParts` | manager/src/decomposition/expression.cpp:356-457 | The factory rebuilds every node from its type, data and ordered operands. |
| `Expression.NewGives` | manager/src/decomposition/expression.cpp:356-457 | The factory gives a node exactly if there is one of that type with the first of the operands as its operands and, for a leaf, the data. |
| `Meaning.EvalDenotes` | worker/src/worker-impl/thread_pool.cpp:95-172 | Evaluation by type codes with the worker's operations gives a value if and only if the expression denotes it, said constructor by constructor. |
| `ValueNumbering.WalkKeeps` | manager/src/decomposition/expression.cpp:111-115 | The postorder walk keeps records distinct and operands before users, extends what was there, and adds exactly the subtrees of the walked tree. |
| `ValueNumbering.RecordsOfAst` | manager/src/decomposition/dag_visitor.cpp:15-26 | The records of an AST are its distinct subtrees, operands first, the AST last. |
| `ValueNumbering.RecordsInPostorder` | manager/src/decomposition/expression.cpp:173-177 | The records are the first occurrences, in order, in the AST's postorder: left operand, right operand, node. |
| `ValueNumbering.DagVisitor.Find` | manager/src/decomposition/dag_visitor.cpp:18-23 | The search finds the first equal record, and none exactly if there is none. |
| `ValueNumbering.DagVisitor.Visit` | manager/src/decomposition/dag_visitor.cpp:15-26 | A node is appended unless an equal one is recorded. |
| `ValueNumbering.DagVisitor.PostorderTraverse` | manager/src/decomposition/expression.cpp:111-115 | The traversal with the visitor performs the specified walk; from nothing recorded it leaves the first occurrences of the postorder, in order. |
| `ValueNumbering.DagVisitor.AddEdge` | manager/src/decomposition/dag_visitor.cpp:43-55 | An edge to the vertex of the operand is appended; fails exactly for an unrecorded operand. |
| `ValueNumbering.DagVisitor.BuildGraph` | manager/src/decomposition/dag_visitor.cpp:28-72 | The two loops build one vertex per record and its operand edges left before right, repetitions kept; fails exactly if an operand is unrecorded. |
| `Sharing.UnfoldRestoresAst` | manager/src/decomposition/dag_visitor.cpp:28-72 | Unfolding the graph from its last vertex gives back the AST. |
| `Sharing.NoTwoVerticesAlike` | manager/src/decomposition/dag_visitor.cpp:15-26 | No two vertices agree in type, data and ordered targets. |
| `Sharing.VertexCount` | manager/src/decomposition/dag_visitor.cpp:15-26 | There are as many vertices as distinct subtrees. |
| `Sharing.SharedIffEqual` | manager/src/decomposition/dag_visitor.cpp:15-26 | Two nodes of the AST have the same vertex if and only if they are structurally equal. |
| `Sharing.AllReachable` | manager/src/decomposition/dag_visitor.cpp:57-69 | Every vertex is reachable from the root, along a path the lemma returns. |
| `Sharing.RootImpliesAll` | manager/src/decomposition/decomposition.cpp:52-76 | A set closed under operands that holds the root holds every vertex. |
| `Sharing.AnyOrderEndsAtRoot` | manager/src/decomposition/decomposition.cpp:22-31 | Any order with operands before users ends with the AST's vertex. |
| `Sharing.VertexValueIsSubtreeValue` | worker/src/worker-impl/thread_pool.cpp:95-172 | Evaluating the graph vertex by vertex gives every vertex the value of its subtree, operands in order and repetitions kept. |
| `Sharing.GraphPreservesMeaning` | manager/src/decomposition/dag_visitor.cpp:28-72 | The shared graph evaluates at its root to the value of the AST. |
| `Decomposition.TopologicalSort` | manager/src/decomposition/decomposition.cpp:26-28 | Depth-first finish order over such a graph is the order of the vertex numbers, and lists operands first. |
| `Decomposition.Evaluate` | worker/src/worker-impl/thread_pool.cpp:95-172 | A loop over any operands-first order with a table of results gives every vertex the value of the graph at it. |
| `Decomposition.TableIsEval` | worker/src/worker-impl/thread_pool.cpp:95-172 | Such a table holds for every vertex the value of its subtree, and for the last task the value of the AST. |
| `Decomposition.GetIndependentTasks` | manager/src/decomposition/decomposition.cpp:33-50 | Exactly the variable vertices, each with its name; fails exactly if one holds a constant. |
| `Decomposition.GetComputableTasks` | manager/src/decomposition/decomposition.cpp:52-76 | Exactly the tasks neither computed nor excluded whose operands are all computed, each with its ordered operands. |
| `Decomposition.New` | manager/src/decomposition/decomposition.cpp:22-31 | Walk, build and sort produce the graph of the AST, sorted, and a plan for computing it. |
| `Decomposition.DagIsPlan` | manager/src/decomposition/decomposition.cpp:22-31 | The graph has the properties dispatching relies on: edges down, root above everything, variables exactly at the leaves, same meaning as the AST. |
| `Decomposition.ConstantVertexIff` | manager/src/decomposition/decomposition.cpp:41-45 | The graph has a constant vertex exactly if the AST has a `scalar_const` leaf. |
| `Dispatch.FormTaskRequest` | manager/src/dispatch/dispatch.cpp:101-148 | The request carries the task's key, its operation and its operands in order, variables by name and computed operands by key. |
| `Dispatch.NewCalculationData` | manager/src/dispatch/dispatch.cpp:159-177 | Fails exactly on ASTs with a `scalar_const` leaf; otherwise variables are completed, the frontier follows from them, and the graph is the value-numbered graph of the AST and a plan for it. |
| `Dispatch.SendFrontier` | manager/src/dispatch/dispatch.cpp:37-45 | One problem's frontier is requested, each task once with its operands, marked processing, and emptied. |
| `Dispatch.SendAll` | manager/src/dispatch/dispatch.cpp:34-47 | A pass requests every frontier task of every problem exactly once, older problems first. |
| `Dispatch.Dispatcher.SendComputableTasks` | manager/src/dispatch/dispatch.cpp:34-47 | The pass appends exactly these requests to what was sent and changes nothing else. |
| `Dispatch.Dispatcher.UpdateComputableTasks` | manager/src/dispatch/dispatch.cpp:49-69 | What a reply does to the statuses, the frontier and the waiter, and exactly when a lookup throws. |
| `Dispatch.Dispatcher.UpdateComputableTasksImpl` | manager/src/dispatch/dispatch.cpp:214-237 | The task completes and the frontier is recomputed from the statuses. |
| `Dispatch.Dispatcher.NotifyComputedProblem` | manager/src/dispatch/dispatch.cpp:179-191 | The root completes and only its problem's waiter is flagged. |
| `Dispatch.Dispatcher.PushProblem` | manager/src/dispatch/dispatch.cpp:193-205 | The problem gets a new id, unused in both maps. |
| `Dispatch.Dispatcher.ClearProblem` | manager/src/dispatch/dispatch.cpp:207-212 | The problem leaves both maps. |
| `Frontier.StartAgrees` | manager/src/dispatch/dispatch.cpp:159-177 | A new problem's cached frontier is the recomputed one, and every started task has its operands completed. |
| `Frontier.StartEffect` | manager/src/dispatch/dispatch.cpp:159-177 | A new problem has its variables completed and named, nothing else started, and as frontier the tasks whose operands are all completed. |
| `Frontier.SendEffect` | manager/src/dispatch/dispatch.cpp:37-45 | A pass puts the frontier in progress, empties it, and leaves every other status. |
| `Frontier.ReplyEffect` | manager/src/dispatch/dispatch.cpp:49-69 | Whatever the statuses, a reply completes one task; after it the frontier is exactly the unstarted tasks whose operands are all completed, with these operands, except that the root's reply leaves it as it was. |
| `Frontier.SendAgrees` | manager/src/dispatch/dispatch.cpp:34-47 | Sending keeps that. |
| `Frontier.ReplyAgrees` | manager/src/dispatch/dispatch.cpp:214-237 | A reply other than the root's keeps it. |
| `Frontier.OnReplyAgrees` | manager/src/dispatch/dispatch.cpp:49-69 | Any reply that names a started task keeps it, although the root's does not recompute the frontier; a repeated one changes nothing. |
| `Frontier.RootFinishesLast` | manager/src/dispatch/dispatch.cpp:56-68 | Once the root is started all else is completed and nothing is left to send. |
| `Frontier.SomethingToDo` | manager/src/decomposition/decomposition.cpp:52-76 | While the root is incomplete some task is computable or processing. |
| `Frontier.WorkAtStart` | manager/src/dispatch/dispatch.cpp:159-177 | Twice the unsent operations plus the running ones starts at twice the operations. |
| `Frontier.SendReducesWork` | manager/src/dispatch/dispatch.cpp:34-47 | Each request takes one unit of it. |
| `Frontier.ReplyReducesWork` | manager/src/dispatch/dispatch.cpp:214-237 | Each reply takes one unit. |
| `Frontier.WorkRunsOut` | manager/src/dispatch/dispatch.cpp:49-69 | None is left exactly when the root is completed. |
| `Broker.Broker.RegisterWorker` | broker/src/broker-impl/broker_impl.cpp:105-116 | A new identity gets its capacity, an existing one is refused, the queue is not touched. |
| `Broker.Broker.SendTaskToWorkerImpl` | broker/src/broker-impl/broker_impl.cpp:171-179 | The task is published and the worker's counter decremented as an unsigned number. |
| `Broker.CountersWrap` | broker/src/broker-impl/broker_impl.cpp:118-179 | Counting a core up and down is arithmetic modulo 2^64, below zero included. |
| `Broker.Broker.FindFree` | broker/src/broker-impl/broker_impl.cpp:152-156 | A worker with a free core, or none exactly if there is none. |
| `Broker.Broker.SendTaskToWorker` | broker/src/broker-impl/broker_impl.cpp:151-169 | The task goes to a free worker, or to the end of the queue if there is none. |
| `Broker.Broker.SendTaskToWorkerFromQueue` | broker/src/broker-impl/broker_impl.cpp:132-141 | The newest task is published to the worker and the oldest removed; the others stay queued in order. |
| `Broker.Broker.ProcessWorkerTaskReply` | broker/src/broker-impl/broker_impl.cpp:118-130 | A reply frees a core, drains one task if one waits, and is forwarded; fails exactly for an unregistered worker. |
| `Broker.DrainsAgreeIff` | broker/src/broker-impl/broker_impl.cpp:132-141 | For distinct tasks the drain as written agrees with first-in first-out if and only if one task is queued. |
| `Broker.WrittenDrainLosesOldest` | broker/src/broker-impl/broker_impl.cpp:132-141 | With two or more it neither publishes nor keeps the oldest, and publishes the newest while keeping it. |
| `Broker.DrainKeepsRest` | broker/src/broker-impl/broker_impl.cpp:132-141 | With any queue, the worker that replied gets the newest task as written and the oldest first-in first-out; the oldest leaves the queue, all others stay in their order, and the tasks queued and published are otherwise the same. |
| `Broker.HandleKeepsBusy` | broker/src/broker-impl/broker_impl.cpp:118-169 | If workers register only while nothing waits, a waiting task means that no core is free. |
| `Broker.HandleKeepsOrder` | broker/src/broker-impl/broker_impl.cpp:118-169 | Then, drained first-in first-out, what was published followed by what is queued is what was received, in order. |
| `Broker.PoliteRunsKeepOrder` | broker/src/broker-impl/broker_impl.cpp:118-169 | Both in every such run of the broker. |
| `Broker.WrittenRunLosesTask` | broker/src/broker-impl/broker_impl.cpp:132-141 | Three tasks for one core: as written, the second is lost and the third doubled. |
| `Worker.Database.WriteDynamicData` | database/database-server/database-server-impl/database_server.cpp:85-99 | Inserts a new key; an existing key is an error and changes nothing; no other record changes. |
| `Worker.Database.ClearIntermediateCalculations` | database/database-server/database-server-impl/database_server.cpp:144-154 | Removes exactly the records of the problem. |
| `Worker.ThreadPool.ReadRequest` | worker/src/worker-impl/worker_impl.cpp:82-98 | A request for this worker is appended to the pool's queue, any other dropped: the delivery step of the composed system. |
| `Worker.ThreadPool.PopTask` | worker/src/worker-impl/thread_pool.cpp:36-51 | An idle thread takes the oldest pending task, if any: the take step of the composed system. |
| `Worker.ThreadPool.ExtractOperands` | worker/src/worker-impl/thread_pool.cpp:74-93 | A sequence of read steps leaves the thread with its operands' values in order; fails exactly if one is missing. |
| `Worker.ThreadPool.CalculateTask` | worker/src/worker-impl/thread_pool.cpp:53-72 | Stores what the operation gives on the stored operands, unless the key exists, and queues the response in either case, as the store and respond steps do; fails exactly if the operation has no result on them. |
| `Worker.ThreadPool.CheckOutputQueue` | worker/src/worker-impl/worker_impl.cpp:100-120 | The oldest response, if any, is sent under the worker's identity: the output step of the composed system. |
| `Soundness.StepKeepsSound` | manager/src/dispatch/dispatch.cpp:27-99 | With either drain, every step keeps requests genuine, operands read right, records and answers equal to the value of their subtree. |
| `Soundness.RunIsSound` | manager/src/dispatch/dispatch.cpp:27-99 | Every run of either drain keeps that. |
| `Termination.StepReducesRemaining` | manager/src/dispatch/dispatch.cpp:27-99 | With either drain, every step that is not an arrival and not an empty pass reduces one measure of the whole system. |
| `Termination.RemainingNonNegative` | manager/src/dispatch/dispatch.cpp:27-99 | The measure is not negative where no receiver is ahead of its sender. |
| `Termination.StepsAreBounded` | manager/src/dispatch/dispatch.cpp:27-99 | So from every state of every run, without new arrivals, every continuation is bounded. |
| `Ledger.RunIsManaged` | manager/src/dispatch/dispatch.cpp:27-99 | In every run of either drain the two maps hold the same problems, those whose clients still wait, each with its cache agreeing and its waiter flagged exactly if its root is completed, and the requests sent are exactly the started tasks. |
| `Ledger.FrontierCacheAgrees` | manager/src/dispatch/dispatch.cpp:34-47 | In every run of either drain every cached frontier holds exactly the tasks not started whose operands are all completed, each with its ordered operands. |
| `Ledger.DispatchedExactlyOnce` | manager/src/dispatch/dispatch.cpp:214-237 | In every run of either drain no task is requested twice, only operations are, and a client past its wait has had every operation requested. |
| `Ledger.VariableNeverReturns` | manager/src/dispatch/dispatch.cpp:165-174 | In every run of either drain a problem that is a single variable still waits. |
| `Capacity.RunFits` | broker/src/broker-impl/broker_impl.cpp:118-179 | In every run of either drain each worker's load fits its counter, and before its registration it has no load. |
| `Capacity.CapacityIsConserved` | broker/src/broker-impl/broker_impl.cpp:118-179 | In every run of either drain free cores plus tasks at the worker equal the capacity it registered. |
| `Capacity.PendingTaskHasIdleThread` | worker/src/worker-impl/worker_impl.cpp:73-120 | In every run of either drain, at every worker with a core, pending plus held tasks are at most one fewer than the threads, so some thread is idle. |
| `Capacity.NoCoresAdvertisesAll` | worker/src/worker-impl/worker_impl.cpp:73-80 | The advertised count is one fewer than the cores modulo 2^32, so no cores advertise 2^32 - 1. |
| `Capacity.RunServes` | broker/src/broker-impl/broker_impl.cpp:105-169 | In every run of either drain, whenever workers register, a task waits only while a registered worker has no free core. |
| `AllRuns.RunIsRegular` | manager/src/dispatch/dispatch.cpp:27-99 | Every run of either drain keeps all of this at once. |
| `Conservation.PublicationsBalance` | broker/src/broker-impl/broker_impl.cpp:118-179 | In every run of either drain, for every task: copies at the workers plus answers forwarded equal copies published. |
| `Conservation.OwedIsInFlight` | broker/src/broker-impl/broker_impl.cpp:118-179 | A task published more often than the dispatcher has received its answer is at a worker or its answer is on the way. |
| `Losses.EveryCopyIsAccountedFor` | broker/src/broker-impl/broker_impl.cpp:118-179 | In every run of either drain, for every task: requests plus copies that drains have doubled equal copies in flight, answers received, and times a drain has dropped it. |
| `Losses.InFlightIff` | broker/src/broker-impl/broker_impl.cpp:132-141 | So it is in flight exactly if the former outnumber answers and drops. |
| `Losses.OnlyTheOldestIsLost` | broker/src/broker-impl/broker_impl.cpp:132-141 | A task requested, not answered and no longer in flight was, at some step of the run, the oldest of two or more that a drain as written found. |
| `Order.TasksAreTakenInOrder` | worker/src/worker-impl/thread_pool.cpp:36-51 | In every run of either drain, the tasks a worker's threads have begun with, those pending and those in its inbox are those published to it, in that order. |
| `Order.AnswersLeaveInOrder` | worker/src/worker-impl/worker_impl.cpp:100-120 | In every run of either drain, the answers forwarded from a worker, those in its outbox and those finished are those its threads reported, in that order. |
| `Safety.StepKeeps` | manager/src/dispatch/dispatch.cpp:27-99 | Every step that does not drain two or more tasks as written keeps the full invariant: each task in one place, capacities conserved, caches agreeing, histories without repetition. |
| `Safety.RunKeeps` | manager/src/dispatch/dispatch.cpp:27-99 | Every run that loses no task keeps it; `LostTasks` and `Progress.LossIsUnanswered` describe the others. |
| `Safety.SinglyDrainedRunIsFifo` | broker/src/broker-impl/broker_impl.cpp:132-141 | A run of the drain as written in which each drain finds one task is a first-in first-out run. |
| `Results.ReturnedValueIsEval` | manager/src/dispatch/dispatch.cpp:71-99 | In every run of the code as written, and with a first-in first-out drain, a call that returns, returns the value of its AST. |
| `Results.ReturnedValueIsWorkersEval` | manager/src/dispatch/dispatch.cpp:71-99 | The same with the worker's own arithmetic. |
| `Results.ReturnedValueIsDenoted` | manager/src/dispatch/dispatch.cpp:71-99 | In every run of either drain with the worker's operations, the value returned is the one and only value the AST denotes. |
| `Results.NeverCrashes` | manager/src/dispatch/dispatch.cpp:49-99 | In every run that loses no task no lookup throws, no read misses its record, no waiter reference dangles; `Collapse.WrittenCrashIff` says when the others can. |
| `Results.NoDuplicateInsert` | database/database-client/database_client.cpp:61-88 | In every run that loses no task no insert hits an existing key. |
| `Results.GraphIsDag` | manager/src/decomposition/decomposition.cpp:22-31 | In every run a client's graph is the one value numbering builds for its AST. |
| `Results.StoredValueIsEval` | worker/src/worker-impl/thread_pool.cpp:53-72 | In every run, whatever the schedule and the drain, a stored record holds the value of the task's subtree. |
| `Results.OperandsAreStored` | worker/src/worker-impl/thread_pool.cpp:53-93 | Read after write, in every run that loses no task: a thread at work finds every computed operand in the store with its value, not cleared. |
| `Results.AnsweredExactlyOnce` | manager/src/dispatch/dispatch.cpp:49-69 | In every run that loses no task, no task is answered twice, only operations are, and a client with an operation at its root is flagged or past its wait if and only if all its operations have been answered. |
| `Results.EveryTaskInOnePlace` | broker/src/broker-impl/broker_impl.cpp:118-179 | In every run that loses no task, every requested and not yet answered task is in exactly one place between the dispatcher's request and its receipt of the reply, and nothing else is. |
| `Results.RootRepliesLast` | manager/src/dispatch/dispatch.cpp:49-69 | In every run that loses no task, the next reply names a known problem and task; if it is the root's, all else is completed and nothing else of the problem is in flight. |
| `LostTasks.LostForever` | manager/src/dispatch/dispatch.cpp:49-69 | A processing task that nothing names any more stays so whatever follows, with either drain. |
| `LostTasks.WrittenDrainLosesProblem` | broker/src/broker-impl/broker_impl.cpp:132-141 | After a drain that finds two or more tasks, the oldest is lost and the client waiting for it waits for ever, whatever follows. |
| `LostTasks.WrittenDrainLosesIff` | broker/src/broker-impl/broker_impl.cpp:132-141 | A drain as written loses the oldest task if and only if it finds two or more. |
| `Liveness.PoliteRunIsOrderly` | broker/src/broker-impl/broker_impl.cpp:118-169 | In every run that loses no task and in which workers register only while nothing waits, requests reach workers in the order sent, and none waits while a core is free. |
| `Progress.NeverStuck` | manager/src/dispatch/dispatch.cpp:27-99 | After a run that loses no task, with workers, every problem with a value, and a waiting task only beside a busy registered worker: while a problem with an operation at its root is unanswered, some step is possible. |
| `Progress.RestAnsweredIff` | broker/src/broker-impl/broker_impl.cpp:105-169 | At rest after a run that loses no task, with any workers, all problems have been answered if and only if the broker's queue is empty. |
| `Progress.RestMeansAnswered` | manager/src/dispatch/dispatch.cpp:71-99 | If each worker has two cores and every problem a value, at rest after a run that loses no task every problem with an operation at its root has returned. |
| `Progress.LossIsUnanswered` | broker/src/broker-impl/broker_impl.cpp:132-141 | After a run of the drain as written in which some drain found two tasks, some problem with an operation at its root has not returned. |
| `Progress.WrittenRunAnswersIff` | broker/src/broker-impl/broker_impl.cpp:132-141 | The code as written, two cores at each worker, every problem with a value: at rest all problems have been answered if and only if every drain of the run found one task. |
| `Progress.EveryProblemIsAnswered` | manager/src/dispatch/dispatch.cpp:71-99 | Two cores at each worker, every problem with a value, either drain: from any state the steps without arrivals are bounded. If no drain of the run lost a task the system stays up, and where no step is left every problem with an operation at its root has returned the value of its AST; otherwise some such problem has not returned, wherever the steps end. |
| `Progress.ComeToRest` | manager/src/dispatch/dispatch.cpp:27-32 | From any state of any run some continuation comes to rest or ends in a crash. |
| `Patience.PatientRunNeverCrashes` | manager/src/dispatch/dispatch.cpp:71-99 | With either drain, whatever it loses or doubles: a run in which each problem is cleared only once nothing of it is in flight does not crash. |
| `Patience.ReachedIsPatient` | manager/src/dispatch/dispatch.cpp:71-99 | Every run that loses no task is such a run. |
| `Patience.RestSafely` | manager/src/dispatch/dispatch.cpp:27-99 | From any state of such a run, with two cores at each worker and every problem with a value, some continuation comes to rest without a crash. |
| `Stranded.OneCoreWorkerStrands` | broker/src/broker-impl/broker_impl.cpp:105-116 | For any workers of which one has one core, any problem with an operation at its root and either drain: a run that comes to rest with every worker registered, tasks queued, cores free where offered, and the client waiting. |
| `Stranded.AnsweredIffTwoCores` | broker/src/broker-impl/broker_impl.cpp:105-116 | For any workers with cores: all runs with them that lose no task, ask only problems with a value and come to rest have answered everything if and only if every worker has at least two cores. |
| `Overload.FirstPass` | manager/src/dispatch/dispatch.cpp:34-47 | The first pass over any new problems sends as many requests as their frontiers hold together. |
| `Overload.WrittenDrainIsOverloaded` | broker/src/broker-impl/broker_impl.cpp:132-141 | For any workers and any problems with a value, if the first pass over the problems sends more than some worker with two cores has: a run of the code as written reaches a drain that finds two tasks. |
| `Overload.LossRests` | broker/src/broker-impl/broker_impl.cpp:132-141 | Two cores at each worker, every problem with a value: a drain as written about to lose a task is followed by some run to rest, the system up. |
| `Overload.NoStaffingSuffices` | broker/src/broker-impl/broker_impl.cpp:132-141 | The code as written, any workers and any problem with a value: some run comes to rest, the system up, with a client unanswered. |
| `Collapse.WrittenRunCrashes` | manager/src/dispatch/dispatch.cpp:49-69 | For any workers of which one has two cores and any problem with a value to choose from: a run of the code as written in which a reply for a problem already cleared makes the dispatcher's lookup throw. |
| `Collapse.OneCoreDrainsNothing` | worker/src/worker-impl/worker_impl.cpp:73-80 | Workers with one core are never given a task, so no drain happens. |
| `Collapse.WrittenCrashIff` | broker/src/broker-impl/broker_impl.cpp:132-141 | Some run of the code as written with these workers and solvable problems crashes if and only if some worker has at least two cores. |
| `Width.RunningIsIndependent` | manager/src/decomposition/decomposition.cpp:52-76 | The tasks of a problem that are in progress are operations none of which is computed from another. |
| `Width.OpeningIs` | manager/src/dispatch/dispatch.cpp:159-177 | A new problem's frontier is the operations on variables alone. |
| `Width.OpeningIsIndependent` | manager/src/dispatch/dispatch.cpp:159-177 | They are independent, so the width of the graph is at least their number. |
| `Width.UnsharedOpensWide` | manager/src/decomposition/decomposition.cpp:52-76 | If no operation is an operand of two others, the width is exactly their number. |
| `Headroom.OutstandingBound` | manager/src/dispatch/dispatch.cpp:34-47 | No more tasks are between request and answer than the summed widths of the problems' graphs. |
| `Headroom.QueueTakesMore` | broker/src/broker-impl/broker_impl.cpp:151-169 | Where a worker with a core has no free one, the tasks under way are at least all it offers plus the queue. |
| `Headroom.NarrowRunLosesNothing` | broker/src/broker-impl/broker_impl.cpp:132-141 | A run of the code as written loses no task if the summed widths of its problems are at most the cores of every worker. |
| `Headroom.WrittenAnswersIff` | broker/src/broker-impl/broker_impl.cpp:118-141 | All runs of the code as written that come to rest with these workers, problems with a value and summed widths of at most n have answered everything, if and only if every worker has at least two cores and at least n. |
| `Headroom.WrittenLoadIff` | broker/src/broker-impl/broker_impl.cpp:118-141 | Two cores at each worker, given problems with a value whose width is the size of their first frontier: all runs of the code as written in which these have been asked lose no task, and all of them at rest have answered everything, if and only if no worker has fewer cores than those frontiers together hold. |
| `Stages.AnswersInOrder` | broker/src/broker-impl/broker_impl.cpp:118-179 | A single worker with two cores: in every run that loses no task the answers come in the order of the requests. |
| `Stages.StagedLosesNothing` | broker/src/broker-impl/broker_impl.cpp:132-141 | A single worker with two cores, and alone on it a problem of which any three independent operations include one requested at the start and one that comes two stages later: no run of the code as written loses a task. |
| `Stages.WidthIsNotNeeded` | broker/src/broker-impl/broker_impl.cpp:132-141 | Such a problem with three independent operations: more can be outstanding as far as its graph goes than the worker has cores, and yet no run of the code as written loses a task. |
| `Waiters.RunsAreGood` | manager/src/dispatch/dispatch.cpp:179-212 | The lock-level invariant holds in every run of the lock machine, also where a root is answered twice. |
| `Handshake.ClusterRunsAreLockRuns` | manager/src/dispatch/dispatch.cpp:179-212 | In every run of the composed system that has not crashed, with either drain, the blocks under `m_` and `cv_m` are a run of the lock machine: every reply of a root, a repeated one too, finds its waiter mapped. |
| `Waiters.ReferencesAreLive` | manager/src/dispatch/dispatch.cpp:179-212 | Every reference in the map, and every waiter the dispatcher is using, belongs to a call that has not got past its clear. |
| `Waiters.LeavesOnlyComputed` | manager/src/dispatch/dispatch.cpp:81-86 | A call leaves its wait only with the flag set, and a sleeper whose flag is set is about to be notified. |
| `Waiters.MutualExclusion` | manager/src/dispatch/dispatch.cpp:179-212 | At most one agent is in a block under `m_`, and under one `cv_m`. |
| `Waiters.LockIsReleased` | manager/src/dispatch/dispatch.cpp:179-212 | While `m_` is held, its holder or the holder of the `cv_m` it waits for has a step that brings the release nearer. |
| `Waiters.CvIsReleased` | manager/src/dispatch/dispatch.cpp:81-86 | A held `cv_m` is released by the next step of its holder. |
| `Codec.ReadWritten` | lib/cppzmq/zmq_addon.hpp:77-102 | Reading a written size gives it back. |
| `Codec.WriteRead` | lib/cppzmq/zmq_addon.hpp:77-102 | Writing a read size gives the four bytes back. |
| `Codec.NetworkOrderIs` | lib/cppzmq/zmq_addon.hpp:77-102 | The four bytes are the base-256 digits of the size, the most significant first. |
| `Codec.EncodedSize` | lib/cppzmq/zmq_addon.hpp:222-234 | The first pass fails exactly on a part over 2^32 - 1 bytes and otherwise gives the length of the encoding. |
| `Codec.EncodeBuffer` | lib/cppzmq/zmq_addon.hpp:220-258 | The second pass fills a buffer of that size with the encoding. |
| `Codec.ReadPart` | lib/cppzmq/zmq_addon.hpp:280-297 | The bounds of the next part; throws exactly if the size or the part runs past the end. |
| `Codec.SplitIff` | lib/cppzmq/zmq_addon.hpp:280-297 | A part and the bytes after it are read exactly if the message is that part behind its size in one byte, or behind 0xFF and its size in four, a size below 255 included, and then these bytes. |
| `Codec.SplitFailsIff` | lib/cppzmq/zmq_addon.hpp:280-297 | Reading it throws exactly if the four-byte size or the part runs past the end. |
| `Codec.DecodeIff` | lib/cppzmq/zmq_addon.hpp:275-302 | Decoding gives these parts exactly if the bytes are these parts, each behind its size in one of the two forms, and nothing else. |
| `Codec.DecodeBuffer` | lib/cppzmq/zmq_addon.hpp:275-302 | The pointer loop gives the parts the bytes frame, throws exactly if they frame none, and has then emitted the parts before the malformed one. |
| `Codec.EmittedDecodes` | lib/cppzmq/zmq_addon.hpp:275-302 | What has been emitted is the decoding of a prefix of the bytes, of all of them exactly if decoding succeeds; otherwise the size or the part that follows runs past the end. |
| `Codec.DecodeEncode` | lib/cppzmq/zmq_addon.hpp:220-302 | Decoding undoes encoding. |
| `Codec.EncodeInjective` | lib/cppzmq/zmq_addon.hpp:220-258 | Different part sequences have different encodings. |
| `Codec.DecodedReencodes` | lib/cppzmq/zmq_addon.hpp:275-302 | What decodes can be encoded, in no more bytes, and in as many only as those very bytes. |
| `Codec.DecodeIsStable` | lib/cppzmq/zmq_addon.hpp:275-302 | Encoding and decoding again gives the same parts, also when a short part used the five-byte size. |

## Left out

- Sockets, polling, gRPC, protobuf bytes, environment variables, Docker and CMake files: channels are reliable and ordered streams; a publication reaches every worker that has subscribed.
- Lost publications and restarts: the code has no recovery for them. A run ends when the first process dies of an uncaught exception; what the other processes do then is not modelled.
- An operation or variable without a defined value leaves its thread without a further step, where the real thread would throw or produce an unspecified value.
- SQLite statements and blobs: the store is a map with insert, read and clear by problem.
- JSON parsing of ASTs: the model starts from a well-formed expression in which every operation has its operands.
- Boost: the sort is modelled as depth-first finish order, and the composed system allows any order that lists operands first.
- Problem ids travel as 32-bit numbers: a run admits at most 2^32 problems, and task ids are taken to fit as well.
- Problems admitted with a constant: `CalculationData::New` throws before anything is pushed, so such a call is no step of the composed system.
- The unlocked map lookups of a waiting client (`manager/src/dispatch/dispatch.cpp:82-84`) are atomic; their race with insertions into the same map is not modelled.
- Condition variables and threads of the library: a wait may wake spuriously, a notification wakes every sleeper.
- Logging, formatters, print visitors, `ListHasher`, `IsScalarVariable`, client and configuration code: they compute nothing the results depend on.
- Worker.ThreadPool.CalculateTask: sequential; the interleaving of the reads, the write and the response with other threads is in `Cluster.Next`, where they are separate steps.
- Duplicate worker identities: a worker's identity in the composed system is its position, so two workers with the same `WORKER_IDENTITY`, on which `RegisterWorker` throws (`broker/src/broker-impl/broker_impl.cpp:110-113`), do not occur there; `Broker.Broker.RegisterWorker` models the refusal.
- Core counts: `CORE_COUNT` is read with `std::stoi`, so the results that ask for one problem more than a worker has cores (`Overload.NoStaffingSuffices`, `Collapse.WrittenCrashIff`, `Headroom.WrittenAnswersIff`) take counts from 1 to 2^31 - 1; the other results take them up to 2^32.
- Results.NeverCrashes: only for runs that lose no task; a task doubled by the drain as written may be answered a second time after its problem is cleared, and then the dispatcher's lookup throws (`manager/src/dispatch/dispatch.cpp:59-61`), see `Collapse.WrittenRunCrashes`.
- Headroom.WrittenLoadIff: only for problems whose width is reached at the start. For others, cores for the summed widths are proved enough (`Headroom.NarrowRunLosesNothing`), cores for less than the first frontiers too few (`Overload.WrittenDrainIsOverloaded`), and cores for the summed widths not always needed (`Stages.WidthIsNotNeeded`); no exact condition is stated.
