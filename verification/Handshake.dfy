/** The steps of the composed system are sequences of lock-level moves: what a run of the cluster does
    to the dispatcher's maps and to the waiting clients, up to a crash if there is one, is a run of the
    lock machine. That covers a root's reply that comes twice.
 */
module Handshake {
  import opened Domain
  import opened Expression
  import opened Dispatch
  import opened Broker
  import opened Cluster
  import opened Ledger
  import W = Waiters

  /** A client between two steps of the cluster. */
  function Seen(frame: Frame): W.Caller {
    match frame
    case Waiting(b) => if b then W.Caller(W.Woken, true, None) else W.Caller(W.Asleep, false, None)
    case _ => W.Caller(W.Gone, true, None)
  }

  function Callers(clients: seq<Client>): (r: seq<W.Caller>)
    ensures |r| == |clients| && forall p :: 0 <= p < |r| ==> r[p] == Seen(clients[p].frame)
  {
    seq(|clients|, p requires 0 <= p < |clients| => Seen(clients[p].frame))
  }

  /** The lock machine's view of a state of the cluster: no lock is held between steps. */
  function View(s: Cluster): W.Locks {
    W.Locks(None, W.Free, Callers(s.clients), s.sync)
  }

  predicate RootReplied(s: Cluster) {
    && s.seen < |s.broker.replied|
    && var k := s.broker.replied[s.seen];
       k.problem in s.problems && IsLast(s.problems[k.problem], k.task)
  }

  /** The moves of one step. */
  function Moves(s: Cluster, a: Action): seq<W.Move> {
    match a
    case Push(_, _) => var c := |s.clients|; [W.Arrive] + [W.LockPush(c)] + [W.UnlockPush(c)] + [W.LockCv(c)] + [W.Test(c)]
    case Send(_, _) => [W.LockM] + [W.UnlockM]
    case Reply =>
      if RootReplied(s) then [W.LockM] + [W.RootReply(s.broker.replied[s.seen].problem)] + [W.LockCvOf] + [W.SetComputed] + [W.Notify] + [W.UnlockM]
      else [W.LockM] + [W.UnlockM]
    case Clear(p) => [W.LockCv(p)] + [W.Test(p)] + [W.LockClear(p)] + [W.UnlockClear(p)]
    case _ => []
  }

  ghost function AllMoves(drain: Drain, world: World, run: seq<Action>): seq<W.Move> {
    if run == [] then []
    else
      var front := run[..|run| - 1];
      AllMoves(drain, world, front) +
      if Run(drain, world, front).Some? then Moves(Run(drain, world, front).value, run[|run| - 1]) else []
  }

  // ---------- what each step does to the view ----------

  lemma FrameView(s: Cluster, p: ProblemId, frame: Frame)
    requires p < |s.clients|
    ensures Callers(WithFrame(s, p, frame).clients) == Callers(s.clients)[p := Seen(frame)]
  {
  }

  lemma ReplyView(s: Cluster)
    requires Managed(s) && s.seen < |s.broker.replied| && !NextReply(s).crashed && !s.crashed
    ensures var p := s.broker.replied[s.seen].problem;
            && p < |s.clients| && p in s.sync && s.clients[p].frame.Waiting?
            && View(NextReply(s)) == if RootReplied(s) then View(s).(callers := Callers(s.clients)[p := Seen(Waiting(true))]) else View(s)
  {
    var p := s.broker.replied[s.seen].problem;
    assert ClientManaged(s.clients[p], p, s.problems);
    ReplyIs(s);
    if RootReplied(s) {
      FrameView(s, p, Waiting(true));
    }
  }

  lemma OtherView(drain: Drain, world: World, s: Cluster, a: Action)
    requires Enabled(world, s, a) && !a.Push? && !a.Reply? && !a.Clear?
    ensures View(Next(drain, world, s, a)) == View(s)
  {
    if a.Fetch? {
      FetchView(drain, world, s, a.p);
    } else if a.Finish? {
      FrameView(s, a.p, Returned(s.clients[a.p].frame.v));
    } else {
      OthersLeaveClients(drain, world, s, a);
    }
  }

  lemma OthersLeaveClients(drain: Drain, world: World, s: Cluster, a: Action)
    requires Enabled(world, s, a) && !a.Push? && !a.Reply? && !a.Clear? && !a.Fetch? && !a.Finish?
    ensures Next(drain, world, s, a).clients == s.clients && Next(drain, world, s, a).sync == s.sync
  {
    if ByWorker(a) {
      WorkerStepFrame(drain, world, s, a);
    } else if ByBroker(a) {
      BrokerStepFrame(drain, world, s, a);
    }
  }

  lemma FetchView(drain: Drain, world: World, s: Cluster, p: ProblemId)
    requires Enabled(world, s, Fetch(p))
    ensures View(Next(drain, world, s, Fetch(p))) == View(s)
  {
    var tasks := s.clients[p].dec.tasks;
    if tasks != [] && TaskKey(p, tasks[|tasks| - 1]) in s.store {
      FrameView(s, p, Fetched(s.store[TaskKey(p, tasks[|tasks| - 1])]));
    }
  }

  lemma PushView(drain: Drain, world: World, s: Cluster, a: Action)
    requires Enabled(world, s, a) && a.Push?
    ensures View(Next(drain, world, s, a))
            == W.Joined(View(s), W.Asleep, None, None, s.sync + {|s.clients|})
  {
    assert Callers(Next(drain, world, s, a).clients) == Callers(s.clients) + [W.Caller(W.Asleep, false, None)];
  }

  lemma StepMoves(drain: Drain, world: World, s: Cluster, a: Action, moves: seq<W.Move>)
    requires Managed(s) && Enabled(world, s, a) && !Next(drain, world, s, a).crashed && W.Run(moves) == Some(View(s))
    ensures W.Run(moves + Moves(s, a)) == Some(View(Next(drain, world, s, a)))
  {
    if a.Push? {
      PushView(drain, world, s, a);
      W.PushMoves(moves, View(s));
    } else if a.Reply? {
      ReplyMoves(s, moves);
    } else if a.Clear? {
      FrameView(s, a.p, Cleared);
      W.ClearMoves(moves, View(s), a.p);
    } else if a.Send? {
      OtherView(drain, world, s, a);
      W.PassMoves(moves, View(s));
    } else {
      NoMoves(drain, world, s, a, moves);
    }
  }

  lemma ReplyMoves(s: Cluster, moves: seq<W.Move>)
    requires Managed(s) && s.seen < |s.broker.replied| && !s.crashed && !NextReply(s).crashed && W.Run(moves) == Some(View(s))
    ensures W.Run(moves + Moves(s, Reply)) == Some(View(NextReply(s)))
  {
    ReplyView(s);
    if RootReplied(s) {
      W.RootMoves(moves, View(s), s.broker.replied[s.seen].problem);
    } else {
      W.PassMoves(moves, View(s));
    }
  }

  lemma NoMoves(drain: Drain, world: World, s: Cluster, a: Action, moves: seq<W.Move>)
    requires Enabled(world, s, a) && !a.Push? && !a.Reply? && !a.Clear? && !a.Send?
    ensures moves + Moves(s, a) == moves && View(Next(drain, world, s, a)) == View(s)
  {
    OtherView(drain, world, s, a);
  }

  /** Every run of the cluster that has not crashed is a run of the lock machine. */
  lemma {:induction false} ClusterRunsAreLockRuns(drain: Drain, world: World, run: seq<Action>, s: Cluster)
    requires Run(drain, world, run) == Some(s) && !s.crashed
    ensures W.Run(AllMoves(drain, world, run)) == Some(View(s))
    decreases |run|
  {
    if run == [] {
      assert View(s).callers == [];
    } else {
      var front, a := run[..|run| - 1], run[|run| - 1];
      var s1 := Run(drain, world, front).value;
      ClusterRunsAreLockRuns(drain, world, front, s1);
      RunIsManaged(drain, world, front);
      StepMoves(drain, world, s1, a, AllMoves(drain, world, front));
    }
  }
}
