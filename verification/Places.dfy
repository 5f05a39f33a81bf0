/** Where a task that has been sent and not yet answered can be: exactly one place between the
    dispatcher's request and the dispatcher's receipt of the reply.
 */
module Places {
  import opened Domain
  import opened ValueNumbering
  import opened Dispatch
  import opened Broker
  import opened Worker

  datatype Place =
    | OnWire
    | Queued
    | Inbox(w: WorkerId)
    | Pending(w: WorkerId)
    | OnThread(w: WorkerId, i: nat)
    | Stored(w: WorkerId, i: nat)
    | Finished(w: WorkerId)
    | Outbox(w: WorkerId)
    | Answered

  type Where = map<TaskKey, Place>

  /** The worker a place belongs to, -1 for none. */
  function At(place: Place): int {
    match place
    case OnWire => -1
    case Queued => -1
    case Answered => -1
    case Inbox(w) => w
    case Pending(w) => w
    case OnThread(w, _) => w
    case Stored(w, _) => w
    case Finished(w) => w
    case Outbox(w) => w
  }

  /** The result of a task at this place is in the store. */
  predicate IsPast(place: Place) {
    place.Stored? || place.Finished? || place.Outbox? || place.Answered?
  }

  ghost function Past(where: Where): set<TaskKey> {
    set k | k in where && IsPast(where[k])
  }

  /** ks lists, without repetition, exactly the tasks at place. */
  ghost predicate Holds(ks: seq<TaskKey>, where: Where, place: Place) {
    && Distinct(ks)
    && forall k :: k in ks <==> k in where && where[k] == place
  }

  lemma HoldsElsewhere(ks: seq<TaskKey>, where: Where, place: Place, k: TaskKey, to: Place)
    requires Holds(ks, where, place) && to != place
    requires k in where ==> where[k] != place
    ensures Holds(ks, where[k := to], place)
  {
  }

  lemma HoldsPop(ks: seq<TaskKey>, where: Where, place: Place, to: Place)
    requires Holds(ks, where, place) && ks != [] && to != place
    ensures Holds(ks[1..], where[ks[0] := to], place)
  {
    assert ks == [ks[0]] + ks[1..];
    assert ks[0] !in ks[1..];
  }

  lemma HoldsPush(ks: seq<TaskKey>, where: Where, place: Place, k: TaskKey)
    requires Holds(ks, where, place)
    requires k in where ==> where[k] != place
    ensures Holds(ks + [k], where[k := place], place)
  {
    assert k !in ks;
  }

  lemma HoldsDropped(ks: seq<TaskKey>, where: Where, place: Place, k: TaskKey)
    requires Holds(ks, where, place)
    requires k in where ==> where[k] != place
    ensures Holds(ks, where - {k}, place)
  {
  }

  lemma HoldsDropFirst(ks: seq<TaskKey>, where: Where, place: Place)
    requires Holds(ks, where, place) && ks != []
    ensures Holds(ks[1..], where - {ks[0]}, place)
  {
    assert ks == [ks[0]] + ks[1..];
    assert ks[0] !in ks[1..];
  }

  /** where with all of ks added at one place. */
  ghost function Added(where: Where, ks: seq<TaskKey>, place: Place): Where {
    where + map k | k in ks :: place
  }

  lemma HoldsAdded(held: seq<TaskKey>, where: Where, place: Place, ks: seq<TaskKey>)
    requires Holds(held, where, place) && Distinct(ks) && forall k :: k in ks ==> k !in where
    ensures Holds(held + ks, Added(where, ks, place), place)
  {
    forall i | 0 <= i < |held|
      ensures held[i] in where && held[i] !in ks
    {
      assert held[i] in held;
    }
    forall i | 0 <= i < |ks|
      ensures ks[i] in ks && ks[i] !in held
    {
    }
  }

  lemma HoldsAddedElsewhere(held: seq<TaskKey>, where: Where, place: Place, ks: seq<TaskKey>, to: Place)
    requires Holds(held, where, place) && to != place && forall k :: k in ks ==> k !in where
    ensures Holds(held, Added(where, ks, to), place)
  {
  }

  // ---------- keys of the containers ----------

  function Keys(tasks: seq<Task>): (r: seq<TaskKey>)
    ensures |r| == |tasks| && forall i :: 0 <= i < |r| ==> r[i] == tasks[i].key
  {
    seq(|tasks|, i requires 0 <= i < |tasks| => tasks[i].key)
  }

  lemma KeysPop(tasks: seq<Task>)
    requires tasks != []
    ensures Keys(tasks[1..]) == Keys(tasks)[1..]
  {
  }

  lemma KeysPush(tasks: seq<Task>, t: Task)
    ensures Keys(tasks + [t]) == Keys(tasks) + [t.key]
  {
  }

  /** The publications from a position on that name worker w. */
  function Mine(published: seq<WorkerTask>, from: nat, w: WorkerId): seq<Task>
    decreases |published| - from
  {
    if from >= |published| then []
    else (if published[from].identity == w then [published[from].task] else []) + Mine(published, from + 1, w)
  }

  lemma {:induction false} MineGrows(published: seq<WorkerTask>, from: nat, w: WorkerId, m: WorkerTask)
    requires from <= |published|
    ensures Mine(published + [m], from, w) == Mine(published, from, w) + if m.identity == w then [m.task] else []
    decreases |published| - from
  {
    var published' := published + [m];
    if from == |published| {
      assert Mine(published', from + 1, w) == [];
    } else {
      MineGrows(published, from + 1, w, m);
      var first: seq<Task> := if published[from].identity == w then [published[from].task] else [];
      var rest, last: seq<Task> := Mine(published, from + 1, w), if m.identity == w then [m.task] else [];
      assert Mine(published', from, w) == first + (rest + last) == first + rest + last;
    }
  }

  function DoneKeys(outbox: seq<WorkerMessage>): seq<TaskKey> {
    if outbox == [] then []
    else (if outbox[0].TaskDone? then [outbox[0].key] else []) + DoneKeys(outbox[1..])
  }

  lemma {:induction false} DoneKeysGrow(outbox: seq<WorkerMessage>, m: WorkerMessage)
    ensures DoneKeys(outbox + [m]) == DoneKeys(outbox) + if m.TaskDone? then [m.key] else []
  {
    var outbox' := outbox + [m];
    if outbox == [] {
      assert outbox' == [m] && [m][1..] == [];
    } else {
      assert outbox'[1..] == outbox[1..] + [m] && outbox'[0] == outbox[0];
      DoneKeysGrow(outbox[1..], m);
      var first: seq<TaskKey> := if outbox[0].TaskDone? then [outbox[0].key] else [];
      var rest, last: seq<TaskKey> := DoneKeys(outbox[1..]), if m.TaskDone? then [m.key] else [];
      assert DoneKeys(outbox') == first + (rest + last) == first + rest + last;
    }
  }

  function ReadingKeys(t: Thread): seq<TaskKey> {
    if t.Reading? then [t.task.key] else []
  }

  function ReportingKeys(t: Thread): seq<TaskKey> {
    if t.Reporting? then [t.task.key] else []
  }

  /** Threads not waiting. */
  function Busy(threads: seq<Thread>): (n: nat)
    ensures n <= |threads|
  {
    if threads == [] then 0 else (if threads[0].Idle? then 0 else 1) + Busy(threads[1..])
  }

  lemma {:induction false} BusyUpdate(threads: seq<Thread>, i: nat, t: Thread)
    requires i < |threads|
    ensures Busy(threads[i := t]) + (if threads[i].Idle? then 0 else 1) == Busy(threads) + (if t.Idle? then 0 else 1)
  {
    if i == 0 {
      assert threads[0 := t][1..] == threads[1..];
    } else {
      assert threads[i := t][1..] == threads[1..][i - 1 := t];
      BusyUpdate(threads[1..], i - 1, t);
    }
  }

  lemma {:induction false} SomeIdle(threads: seq<Thread>) returns (i: nat)
    requires Busy(threads) < |threads|
    ensures i < |threads| && threads[i].Idle?
  {
    if threads[0].Idle? {
      i := 0;
    } else {
      var j := SomeIdle(threads[1..]);
      i := j + 1;
    }
  }

  lemma {:induction false} AllIdle(n: nat)
    ensures Busy(seq(n, _ => Idle)) == 0
  {
    if n > 0 {
      AllIdle(n - 1);
      assert seq(n, _ => Idle)[1..] == seq(n - 1, _ => Idle);
    }
  }

  // ---------- sums ----------

  function Tally(ns: seq<nat>): nat {
    if ns == [] then 0 else Tally(ns[..|ns| - 1]) + ns[|ns| - 1]
  }

  lemma TallyGrows(ns: seq<nat>, n: nat)
    ensures Tally(ns + [n]) == Tally(ns) + n
  {
    assert (ns + [n])[..|ns|] == ns;
  }

  lemma {:induction false} TallyUpdate(ns: seq<nat>, i: nat, n: nat)
    requires i < |ns|
    ensures Tally(ns[i := n]) + ns[i] == Tally(ns) + n
  {
    var last := |ns| - 1;
    if i == last {
      assert ns[i := n][..last] == ns[..last];
    } else {
      assert ns[i := n][..last] == ns[..last][i := n];
      TallyUpdate(ns[..last], i, n);
    }
  }

  lemma {:induction false} TallyPositive(ns: seq<nat>) returns (i: nat)
    requires Tally(ns) > 0
    ensures i < |ns| && ns[i] > 0
  {
    var last := |ns| - 1;
    if ns[last] > 0 {
      i := last;
    } else {
      i := TallyPositive(ns[..last]);
    }
  }

  lemma {:induction false} TallyOfPrefix(widths: seq<nat>, n: nat)
    requires n <= |widths|
    ensures Tally(widths[..n]) <= Tally(widths)
  {
    if n < |widths| {
      TallyOfPrefix(widths[..|widths| - 1], n);
      assert widths[..|widths| - 1][..n] == widths[..n];
    } else {
      assert widths[..n] == widths;
    }
  }

  lemma {:induction false} TallyOfMany(ns: seq<nat>)
    requires forall i :: 0 <= i < |ns| ==> ns[i] >= 1
    ensures Tally(ns) >= |ns| && ((forall i :: 0 <= i < |ns| ==> ns[i] == 1) ==> Tally(ns) == |ns|)
  {
    if ns != [] {
      TallyOfMany(ns[..|ns| - 1]);
    }
  }

  // ---------- everything in its place ----------

  ghost predicate ThreadHolds(t: Thread, where: Where, w: WorkerId, i: nat) {
    Holds(ReadingKeys(t), where, OnThread(w, i)) && Holds(ReportingKeys(t), where, Stored(w, i))
  }

  ghost predicate ThreadsHold(threads: seq<Thread>, where: Where, w: WorkerId) {
    forall i {:trigger ThreadHolds(threads[i], where, w, i)} :: 0 <= i < |threads| ==> ThreadHolds(threads[i], where, w, i)
  }

  ghost predicate WorkerHolds(published: seq<WorkerTask>, s: WorkerState, where: Where, w: WorkerId) {
    && s.cursor <= |published|
    && Holds(Keys(Mine(published, s.cursor, w)), where, Inbox(w))
    && Holds(Keys(s.pending), where, Pending(w))
    && ThreadsHold(s.threads, where, w)
    && Holds(s.finished, where, Finished(w))
    && Holds(DoneKeys(s.outbox), where, Outbox(w))
  }

  predicate Exists(workers: seq<WorkerState>, place: Place) {
    && At(place) < |workers|
    && (place.OnThread? || place.Stored? ==> place.i < |workers[At(place)].threads|)
  }

  ghost predicate AllExist(workers: seq<WorkerState>, where: Where) {
    forall k :: k in where ==> Exists(workers, where[k])
  }

  /** The tasks at worker w, and their places, are the same. */
  ghost predicate SameAtWorker(where: Where, where': Where, w: WorkerId) {
    && (forall k :: k in where && At(where[k]) == w ==> k in where' && where'[k] == where[k])
    && (forall k :: k in where' && At(where'[k]) == w ==> k in where && where[k] == where'[k])
  }

  lemma HoldsSame(ks: seq<TaskKey>, where: Where, where': Where, place: Place)
    requires Holds(ks, where, place) && At(place) >= 0 && SameAtWorker(where, where', At(place))
    ensures Holds(ks, where', place)
  {
  }

  lemma WorkerUntouched(published: seq<WorkerTask>, s: WorkerState, where: Where, where': Where, w: WorkerId)
    requires WorkerHolds(published, s, where, w) && SameAtWorker(where, where', w)
    ensures WorkerHolds(published, s, where', w)
  {
    HoldsSame(Keys(Mine(published, s.cursor, w)), where, where', Inbox(w));
    HoldsSame(Keys(s.pending), where, where', Pending(w));
    forall i | 0 <= i < |s.threads|
      ensures ThreadHolds(s.threads[i], where', w, i)
    {
      assert ThreadHolds(s.threads[i], where, w, i);
      HoldsSame(ReadingKeys(s.threads[i]), where, where', OnThread(w, i));
      HoldsSame(ReportingKeys(s.threads[i]), where, where', Stored(w, i));
    }
    HoldsSame(s.finished, where, where', Finished(w));
    HoldsSame(DoneKeys(s.outbox), where, where', Outbox(w));
  }

  lemma ThreadsUntouched(threads: seq<Thread>, where: Where, w: WorkerId, k: TaskKey, to: Place)
    requires ThreadsHold(threads, where, w)
    requires !(to.OnThread? || to.Stored?) || At(to) != w
    requires k in where ==> !(where[k].OnThread? || where[k].Stored?) || At(where[k]) != w
    ensures ThreadsHold(threads, where[k := to], w)
  {
    forall i | 0 <= i < |threads|
      ensures ThreadHolds(threads[i], where[k := to], w, i)
    {
      assert ThreadHolds(threads[i], where, w, i);
      HoldsElsewhere(ReadingKeys(threads[i]), where, OnThread(w, i), k, to);
      HoldsElsewhere(ReportingKeys(threads[i]), where, Stored(w, i), k, to);
    }
  }

  /** A publication for another worker changes nothing for this one. */
  lemma PublicationPasses(published: seq<WorkerTask>, s: WorkerState, where: Where, w: WorkerId, m: WorkerTask)
    requires WorkerHolds(published, s, where, w) && m.identity != w
    requires m.task.key in where ==> At(where[m.task.key]) == -1
    ensures Mine(published + [m], s.cursor, w) == Mine(published, s.cursor, w)
    ensures WorkerHolds(published + [m], s, where[m.task.key := Inbox(m.identity)], w)
  {
    MineGrows(published, s.cursor, w, m);
    WorkerUntouched(published, s, where, where[m.task.key := Inbox(m.identity)], w);
  }

  /** A publication for this worker adds the task to its inbox. */
  lemma PublicationArrives(published: seq<WorkerTask>, s: WorkerState, where: Where, w: WorkerId, m: WorkerTask)
    requires WorkerHolds(published, s, where, w) && m.identity == w
    requires m.task.key in where ==> At(where[m.task.key]) == -1
    ensures |Mine(published + [m], s.cursor, w)| == |Mine(published, s.cursor, w)| + 1
    ensures WorkerHolds(published + [m], s, where[m.task.key := Inbox(w)], w)
  {
    var k := m.task.key;
    MineGrows(published, s.cursor, w, m);
    KeysPush(Mine(published, s.cursor, w), m.task);
    HoldsPush(Keys(Mine(published, s.cursor, w)), where, Inbox(w), k);
    HoldsElsewhere(Keys(s.pending), where, Pending(w), k, Inbox(w));
    ThreadsUntouched(s.threads, where, w, k, Inbox(w));
    HoldsElsewhere(s.finished, where, Finished(w), k, Inbox(w));
    HoldsElsewhere(DoneKeys(s.outbox), where, Outbox(w), k, Inbox(w));
  }

  // ---------- the moves inside one worker ----------

  lemma MoveRead(published: seq<WorkerTask>, s: WorkerState, where: Where, w: WorkerId)
    requires WorkerHolds(published, s, where, w) && s.cursor < |published|
    ensures var m := published[s.cursor];
            if m.identity == w then
              m.task.key in where && where[m.task.key] == Inbox(w)
              && WorkerHolds(published, Deliver(w, s, m), where[m.task.key := Pending(w)], w)
            else WorkerHolds(published, Deliver(w, s, m), where, w)
  {
    var m := published[s.cursor];
    var inbox, rest := Mine(published, s.cursor, w), Mine(published, s.cursor + 1, w);
    if m.identity == w {
      var k := m.task.key;
      assert inbox[0] == m.task && inbox[1..] == rest;
      assert Keys(inbox)[0] in Keys(inbox);
      KeysPop(inbox);
      HoldsPop(Keys(inbox), where, Inbox(w), Pending(w));
      KeysPush(s.pending, m.task);
      HoldsPush(Keys(s.pending), where, Pending(w), k);
      ThreadsUntouched(s.threads, where, w, k, Pending(w));
      HoldsElsewhere(s.finished, where, Finished(w), k, Pending(w));
      HoldsElsewhere(DoneKeys(s.outbox), where, Outbox(w), k, Pending(w));
    } else {
      assert inbox == rest;
    }
  }

  lemma OtherThreads(threads: seq<Thread>, where: Where, w: WorkerId, i: nat, t: Thread, k: TaskKey, to: Place)
    requires ThreadsHold(threads, where, w) && i < |threads|
    requires ThreadHolds(t, where[k := to], w, i)
    requires to.OnThread? || to.Stored? ==> to.i == i || At(to) != w
    requires k in where && (where[k].OnThread? || where[k].Stored?) ==> where[k].i == i || At(where[k]) != w
    ensures ThreadsHold(threads[i := t], where[k := to], w)
  {
    var threads' := threads[i := t];
    forall j | 0 <= j < |threads|
      ensures ThreadHolds(threads'[j], where[k := to], w, j)
    {
      if j != i {
        assert ThreadHolds(threads[j], where, w, j);
        HoldsElsewhere(ReadingKeys(threads[j]), where, OnThread(w, j), k, to);
        HoldsElsewhere(ReportingKeys(threads[j]), where, Stored(w, j), k, to);
      }
    }
  }

  lemma MoveTake(published: seq<WorkerTask>, s: WorkerState, where: Where, w: WorkerId, i: nat)
    requires WorkerHolds(published, s, where, w) && i < |s.threads| && s.threads[i].Idle? && s.pending != []
    ensures var k := s.pending[0].key;
            k in where && where[k] == Pending(w) && WorkerHolds(published, TakeTask(s, i), where[k := OnThread(w, i)], w)
  {
    var k, to := s.pending[0].key, OnThread(w, i);
    assert Keys(s.pending)[0] in Keys(s.pending);
    KeysPop(s.pending);
    HoldsPop(Keys(s.pending), where, Pending(w), to);
    HoldsElsewhere(Keys(Mine(published, s.cursor, w)), where, Inbox(w), k, to);
    assert ThreadHolds(s.threads[i], where, w, i);
    HoldsPush(ReadingKeys(s.threads[i]), where, to, k);
    HoldsElsewhere(ReportingKeys(s.threads[i]), where, Stored(w, i), k, to);
    OtherThreads(s.threads, where, w, i, Reading(s.pending[0], []), k, to);
    HoldsElsewhere(s.finished, where, Finished(w), k, to);
    HoldsElsewhere(DoneKeys(s.outbox), where, Outbox(w), k, to);
  }

  lemma MoveGot(published: seq<WorkerTask>, s: WorkerState, where: Where, w: WorkerId, i: nat, v: Value)
    requires WorkerHolds(published, s, where, w) && i < |s.threads| && s.threads[i].Reading?
    ensures s.threads[i].task.key in where && where[s.threads[i].task.key] == OnThread(w, i)
    ensures WorkerHolds(published, GotOperand(s, i, v), where, w)
  {
    assert ThreadHolds(s.threads[i], where, w, i);
    assert ReadingKeys(s.threads[i])[0] in ReadingKeys(s.threads[i]);
    forall j | 0 <= j < |s.threads|
      ensures ThreadHolds(GotOperand(s, i, v).threads[j], where, w, j)
    {
      assert ThreadHolds(s.threads[j], where, w, j);
    }
  }

  lemma MoveStore(published: seq<WorkerTask>, s: WorkerState, where: Where, w: WorkerId, i: nat)
    requires WorkerHolds(published, s, where, w) && i < |s.threads| && s.threads[i].Reading?
    ensures var k := s.threads[i].task.key;
            k in where && where[k] == OnThread(w, i) && WorkerHolds(published, Worker.Stored(s, i), where[k := Stored(w, i)], w)
  {
    var k, to, t := s.threads[i].task.key, Stored(w, i), s.threads[i];
    assert ThreadHolds(t, where, w, i);
    assert ReadingKeys(t)[0] in ReadingKeys(t);
    HoldsPop(ReadingKeys(t), where, OnThread(w, i), to);
    HoldsPush(ReportingKeys(t), where, to, k);
    OtherThreads(s.threads, where, w, i, Reporting(t.task), k, to);
    HoldsElsewhere(Keys(Mine(published, s.cursor, w)), where, Inbox(w), k, to);
    HoldsElsewhere(Keys(s.pending), where, Pending(w), k, to);
    HoldsElsewhere(s.finished, where, Finished(w), k, to);
    HoldsElsewhere(DoneKeys(s.outbox), where, Outbox(w), k, to);
  }

  lemma MoveReport(published: seq<WorkerTask>, s: WorkerState, where: Where, w: WorkerId, i: nat)
    requires WorkerHolds(published, s, where, w) && i < |s.threads| && s.threads[i].Reporting?
    ensures var k := s.threads[i].task.key;
            k in where && where[k] == Stored(w, i) && WorkerHolds(published, Report(s, i), where[k := Finished(w)], w)
  {
    var k, to, t := s.threads[i].task.key, Finished(w), s.threads[i];
    assert ThreadHolds(t, where, w, i);
    assert ReportingKeys(t)[0] in ReportingKeys(t);
    HoldsPop(ReportingKeys(t), where, Stored(w, i), to);
    HoldsElsewhere(ReadingKeys(t), where, OnThread(w, i), k, to);
    OtherThreads(s.threads, where, w, i, Idle, k, to);
    HoldsElsewhere(Keys(Mine(published, s.cursor, w)), where, Inbox(w), k, to);
    HoldsElsewhere(Keys(s.pending), where, Pending(w), k, to);
    HoldsPush(s.finished, where, to, k);
    HoldsElsewhere(DoneKeys(s.outbox), where, Outbox(w), k, to);
  }

  lemma MoveOutput(published: seq<WorkerTask>, s: WorkerState, where: Where, w: WorkerId)
    requires WorkerHolds(published, s, where, w) && s.finished != []
    ensures var k := s.finished[0];
            k in where && where[k] == Finished(w) && WorkerHolds(published, CheckOutput(w, s), where[k := Outbox(w)], w)
  {
    var k, to := s.finished[0], Outbox(w);
    assert k in s.finished;
    HoldsPop(s.finished, where, Finished(w), to);
    DoneKeysGrow(s.outbox, TaskDone(w, k));
    HoldsPush(DoneKeys(s.outbox), where, to, k);
    HoldsElsewhere(Keys(Mine(published, s.cursor, w)), where, Inbox(w), k, to);
    HoldsElsewhere(Keys(s.pending), where, Pending(w), k, to);
    ThreadsUntouched(s.threads, where, w, k, to);
  }

  /** The head of the outbox leaves for the broker. */
  lemma MoveReply(published: seq<WorkerTask>, s: WorkerState, where: Where, w: WorkerId)
    requires WorkerHolds(published, s, where, w) && s.outbox != [] && s.outbox[0].TaskDone?
    ensures var k := s.outbox[0].key;
            k in where && where[k] == Outbox(w) && WorkerHolds(published, s.(outbox := s.outbox[1..]), where[k := Answered], w)
  {
    var k, ks := s.outbox[0].key, DoneKeys(s.outbox);
    assert ks[0] == k && ks[1..] == DoneKeys(s.outbox[1..]) && ks[0] in ks;
    HoldsPop(ks, where, Outbox(w), Answered);
    HoldsElsewhere(Keys(Mine(published, s.cursor, w)), where, Inbox(w), k, Answered);
    HoldsElsewhere(Keys(s.pending), where, Pending(w), k, Answered);
    ThreadsUntouched(s.threads, where, w, k, Answered);
    HoldsElsewhere(s.finished, where, Finished(w), k, Answered);
  }
}
