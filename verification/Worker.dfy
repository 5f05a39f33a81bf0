/** A worker: the subscriber's inbox, a pool of threads and the queue of finished tasks, and the
    result store the threads read operands from and write results to.
 */
module Worker {
  import opened Domain
  import opened Expression
  import opened Dispatch
  import opened Broker

  // ---------- the result store ----------

  /** dynamic_data: one record per (problem, task); inserting an existing key is an error. */
  type Store = map<TaskKey, Value>

  function ReadOperand(w: World, store: Store, o: Operand): Option<Value> {
    match o
    case StaticOperand(id) => if id in w.vars then Some(w.vars[id]) else None
    case DynOperand(k) => if k in store then Some(store[k]) else None
  }

  function ReadOperands(w: World, store: Store, os: seq<Operand>): (r: seq<Option<Value>>)
    ensures |r| == |os| && forall i :: 0 <= i < |os| ==> r[i] == ReadOperand(w, store, os[i])
  {
    seq(|os|, i requires 0 <= i < |os| => ReadOperand(w, store, os[i]))
  }

  /** The primary key is unique: an insert of an existing key changes nothing. */
  function Inserted(store: Store, k: TaskKey, v: Value): Store {
    if k in store then store else store[k := v]
  }

  function WithoutProblem(store: Store, p: ProblemId): Store {
    map k | k in store && k.problem != p :: store[k]
  }

  class Database {
    var records: Store

    constructor ()
      ensures records == map[]
    {
      records := map[];
    }

    /** false where the primary key is already present. */
    method WriteDynamicData(k: TaskKey, v: Value) returns (ok: bool)
      modifies this
      ensures ok <==> k !in old(records)
      ensures records == Inserted(old(records), k, v)
      ensures records.Keys == old(records).Keys + {k} && (ok ==> records[k] == v)
      ensures forall q :: q in old(records) ==> records[q] == old(records)[q]
    {
      if k in records {
        return false;
      }
      records := records[k := v];
      ok := true;
    }

    method ClearIntermediateCalculations(p: ProblemId)
      modifies this
      ensures records == WithoutProblem(old(records), p)
      ensures forall q :: q in records <==> q in old(records) && q.problem != p
      ensures forall q :: q in records ==> records[q] == old(records)[q]
    {
      records := map k | k in records && k.problem != p :: records[k];
    }
  }

  // ---------- one worker ----------

  /** A pool thread: waiting, reading the operands of a task one by one, or about to queue the
      response of a task whose result is stored. */
  datatype Thread = Idle | Reading(task: Task, got: seq<Value>) | Reporting(task: Task)

  /** cursor is the position in the broker's publications up to which the inbox has been read. */
  datatype WorkerState = WorkerState(
    cores: nat,
    cursor: nat,
    pending: seq<Task>,
    threads: seq<Thread>,
    finished: seq<TaskKey>,
    outbox: seq<WorkerMessage>)

  const UINT32: nat := 0x1_0000_0000

  /** The worker advertises one core fewer than it has threads, as an unsigned 32-bit number. */
  function AckCount(cores: nat): nat {
    (cores - 1) % UINT32
  }

  function Launch(cores: nat, cursor: nat): WorkerState {
    WorkerState(cores, cursor, [], seq(cores, _ => Idle), [], [CoreCount(AckCount(cores))])
  }

  /** Every worker receives every publication and keeps the ones that name it. */
  function Deliver(id: WorkerId, s: WorkerState, message: WorkerTask): WorkerState {
    if message.identity != id then s.(cursor := s.cursor + 1)
    else s.(cursor := s.cursor + 1, pending := s.pending + [message.task])
  }

  function TakeTask(s: WorkerState, i: nat): WorkerState
    requires i < |s.threads| && s.pending != []
  {
    s.(threads := s.threads[i := Reading(s.pending[0], [])], pending := s.pending[1..])
  }

  function GotOperand(s: WorkerState, i: nat, v: Value): WorkerState
    requires i < |s.threads| && s.threads[i].Reading?
  {
    s.(threads := s.threads[i := Reading(s.threads[i].task, s.threads[i].got + [v])])
  }

  function Stored(s: WorkerState, i: nat): WorkerState
    requires i < |s.threads| && s.threads[i].Reading?
  {
    s.(threads := s.threads[i := Reporting(s.threads[i].task)])
  }

  function Report(s: WorkerState, i: nat): WorkerState
    requires i < |s.threads| && s.threads[i].Reporting?
  {
    s.(threads := s.threads[i := Idle], finished := s.finished + [s.threads[i].task.key])
  }

  function CheckOutput(id: WorkerId, s: WorkerState): WorkerState
    requires s.finished != []
  {
    s.(finished := s.finished[1..], outbox := s.outbox + [TaskDone(id, s.finished[0])])
  }

  /** A worker process: the pool's queue and threads, the queue of finished tasks and what has been
      sent to the broker. A method is what one thread, or the main loop, does between two steps of the
      others; its effect is a sequence of the steps above. */
  class ThreadPool {
    const identity: WorkerId
    const world: World
    const db: Database
    const cores: nat
    var cursor: nat
    var pending: seq<Task>
    var threads: seq<Thread>
    var finished: seq<TaskKey>
    var outbox: seq<WorkerMessage>

    function State(): WorkerState
      reads this
    {
      WorkerState(cores, cursor, pending, threads, finished, outbox)
    }

    constructor (identity: WorkerId, world: World, db: Database, cores: nat, cursor: nat)
      ensures this.identity == identity && this.world == world && this.db == db
      ensures State() == Launch(cores, cursor)
    {
      this.identity, this.world, this.db, this.cores, this.cursor := identity, world, db, cores, cursor;
      pending, finished := [], [];
      threads := seq(cores, _ => Idle);
      outbox := [CoreCount(AckCount(cores))];
    }

    /** Requests addressed to other workers are dropped. */
    method ReadRequest(message: WorkerTask)
      modifies this
      ensures State() == Deliver(identity, old(State()), message)
    {
      cursor := cursor + 1;
      if message.identity != identity {
        return;
      }
      pending := pending + [message.task];
    }

    /** The critical section of waiting thread i; false if there is nothing to take. */
    method PopTask(i: nat) returns (ok: bool)
      requires i < |threads| && threads[i].Idle?
      modifies this
      ensures ok <==> old(pending) != []
      ensures State() == if ok then TakeTask(old(State()), i) else old(State())
    {
      if pending == [] {
        return false;
      }
      threads := threads[i := Reading(pending[0], [])];
      pending := pending[1..];
      ok := true;
    }

    /** Thread i reads its operands one by one; false where the read of a missing record would throw. */
    method ExtractOperands(i: nat) returns (ok: bool)
      requires i < |threads| && threads[i].Reading? && threads[i].got == []
      modifies this
      ensures var values := Collect(ReadOperands(world, db.records, old(threads[i]).task.operands));
              && (ok <==> values.Some?)
              && (ok ==> State() == old(State()).(threads := old(threads)[i := Reading(old(threads[i]).task, values.value)]))
    {
      ghost var before := State();
      var task := threads[i].task;
      ghost var values := ReadOperands(world, db.records, task.operands);
      for j := 0 to |task.operands|
        invariant |threads| == |before.threads| && threads[i].Reading? && threads[i].task == task && |threads[i].got| == j
        invariant forall k :: 0 <= k < j ==> values[k] == Some(threads[i].got[k])
        invariant State() == before.(threads := before.threads[i := threads[i]])
      {
        var v := ReadOperand(world, db.records, task.operands[j]);
        if v.None? {
          assert values[j].None?;
          return false;
        }
        threads := GotOperand(State(), i, v.value).threads;
      }
      assert threads[i].got == Collect(values).value;
      ok := true;
    }

    /** Thread i reads, computes, stores and queues the response; false where the operands cannot be read
        or the operation has no result. The client of the database drops the status of the insert, so
        the response is queued even if the key was there already. */
    method CalculateTask(i: nat) returns (ok: bool)
      requires i < |threads| && threads[i].Reading? && threads[i].got == []
      modifies this, db
      ensures var task := old(threads[i]).task;
              var v := ApplyTo(world, task.etype, ReadOperands(world, old(db.records), task.operands));
              && (ok <==> v.Some?)
              && db.records == (if ok then Inserted(old(db.records), task.key, v.value) else old(db.records))
              && (ok ==> State() == Report(Stored(old(State()), i), i))
    {
      ghost var before := State();
      var task := threads[i].task;
      ok := ExtractOperands(i);
      if !ok {
        return;
      }
      var v := world.apply(task.etype, threads[i].got);
      if v.None? {
        return false;
      }
      var inserted := db.WriteDynamicData(task.key, v.value);
      threads := threads[i := Idle];
      finished := finished + [task.key];
      assert State() == Report(Stored(before, i), i);
    }

    method CheckOutputQueue()
      modifies this
      ensures State() == if old(finished) == [] then old(State()) else CheckOutput(identity, old(State()))
    {
      if finished == [] {
        return;
      }
      outbox := outbox + [TaskDone(identity, finished[0])];
      finished := finished[1..];
    }
  }
}
