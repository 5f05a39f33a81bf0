/** The two kinds of mutex around a waiting client, step by step: m_ around the dispatcher's maps
    and each client's cv_m around its is_computed flag.

    A client's SyncData lives in its CalculateProblem frame; the dispatcher reaches it through a
    reference in problem_id_to_sync_data_, and still touches the condition variable after releasing
    cv_m. Here each lock, unlock, wait and notification is a step of its own.
 */
module Waiters {
  import opened Domain

  datatype Agent = TheDispatcher | TheClient(c: nat)

  /** Where a CalculateProblem call is: before PushProblem; inside it; before locking cv_m; testing
      the predicate under cv_m; asleep in wait; woken and needing cv_m again; out of the wait and
      before ClearProblem; inside ClearProblem; past it, when the frame may end. */
  datatype ClientAt = Arrived | Pushing | Pushed | Testing | Asleep | Woken | Leaving | Clearing | Gone

  /** Where the dispatcher is: without m_; with m_; in NotifyComputedProblem before, inside and after
      the block under cv_m of client c. */
  datatype DispatcherAt = Free | Locked | WantsCv(c: nat) | HasCv(c: nat) | Notifying(c: nat)

  datatype Caller = Caller(at: ClientAt, isComputed: bool, cv: Option<Agent>)

  datatype Locks = Locks(m: Option<Agent>, dispatcher: DispatcherAt, callers: seq<Caller>, sync: set<nat>)

  datatype Move =
    | Arrive
    | LockPush(c: nat) | UnlockPush(c: nat)
    | LockCv(c: nat) | Test(c: nat) | Spurious(c: nat)
    | LockClear(c: nat) | UnlockClear(c: nat)
    | LockM | UnlockM
    | RootReply(c: nat) | LockCvOf | SetComputed | Notify

  predicate At(s: Locks, c: nat, at: ClientAt) {
    c < |s.callers| && s.callers[c].at == at
  }

  /** Releasing a lock one holds is always possible; acquiring one needs it free. The dispatcher
      touches a client's SyncData in LockCvOf, SetComputed and Notify. */
  predicate Enabled(s: Locks, move: Move) {
    match move
    case Arrive => true
    case LockPush(c) => At(s, c, Arrived) && s.m.None?
    case UnlockPush(c) => At(s, c, Pushing)
    case LockCv(c) => (At(s, c, Pushed) || At(s, c, Woken)) && s.callers[c].cv.None?
    case Test(c) => At(s, c, Testing)
    case Spurious(c) => At(s, c, Asleep)
    case LockClear(c) => At(s, c, Leaving) && s.m.None?
    case UnlockClear(c) => At(s, c, Clearing)
    case LockM => s.dispatcher.Free? && s.m.None?
    case UnlockM => s.dispatcher.Locked?
    case RootReply(c) => s.dispatcher.Locked? && c in s.sync && c < |s.callers|
    case LockCvOf => s.dispatcher.WantsCv? && s.dispatcher.c < |s.callers| && s.callers[s.dispatcher.c].cv.None?
    case SetComputed => s.dispatcher.HasCv? && s.dispatcher.c < |s.callers|
    case Notify => s.dispatcher.Notifying? && s.dispatcher.c < |s.callers|
  }

  function With(s: Locks, c: nat, caller: Caller): Locks
    requires c < |s.callers|
  {
    s.(callers := s.callers[c := caller])
  }

  function Next(s: Locks, move: Move): Locks
    requires Enabled(s, move)
  {
    match move
    case Arrive => s.(callers := s.callers + [Caller(Arrived, false, None)])
    case LockPush(c) => With(s, c, s.callers[c].(at := Pushing)).(m := Some(TheClient(c)), sync := s.sync + {c})
    case UnlockPush(c) => With(s, c, s.callers[c].(at := Pushed)).(m := None)
    case LockCv(c) => With(s, c, s.callers[c].(at := Testing, cv := Some(TheClient(c))))
    case Test(c) => With(s, c, s.callers[c].(at := if s.callers[c].isComputed then Leaving else Asleep, cv := None))
    case Spurious(c) => With(s, c, s.callers[c].(at := Woken))
    case LockClear(c) => With(s, c, s.callers[c].(at := Clearing)).(m := Some(TheClient(c)), sync := s.sync - {c})
    case UnlockClear(c) => With(s, c, s.callers[c].(at := Gone)).(m := None)
    case LockM => s.(dispatcher := Locked, m := Some(TheDispatcher))
    case UnlockM => s.(dispatcher := Free, m := None)
    case RootReply(c) => s.(dispatcher := WantsCv(c))
    case LockCvOf =>
      var c := s.dispatcher.c;
      With(s, c, s.callers[c].(cv := Some(TheDispatcher))).(dispatcher := HasCv(c))
    case SetComputed =>
      var c := s.dispatcher.c;
      With(s, c, s.callers[c].(isComputed := true, cv := None)).(dispatcher := Notifying(c))
    case Notify =>
      var c := s.dispatcher.c;
      With(s, c, s.callers[c].(at := if s.callers[c].at.Asleep? then Woken else s.callers[c].at)).(dispatcher := Locked)
  }

  function Run(moves: seq<Move>): Option<Locks> {
    if moves == [] then Some(Locks(None, Free, [], {}))
    else
      var s, move := Run(moves[..|moves| - 1]), moves[|moves| - 1];
      if s.None? || !Enabled(s.value, move) then None else Some(Next(s.value, move))
  }

  lemma RunNext(moves: seq<Move>, s: Locks, move: Move)
    requires Run(moves) == Some(s) && Enabled(s, move)
    ensures Run(moves + [move]) == Some(Next(s, move))
  {
    assert (moves + [move])[..|moves|] == moves;
  }

  // ---------- the invariant ----------

  predicate InMap(at: ClientAt) {
    at.Pushing? || at.Pushed? || at.Testing? || at.Asleep? || at.Woken? || at.Leaving?
  }

  predicate Waits(at: ClientAt) {
    at.Arrived? || at.Pushing? || at.Pushed? || at.Testing? || at.Asleep? || at.Woken?
  }

  /** The client whose SyncData the dispatcher is using, if any. */
  function Touched(d: DispatcherAt): Option<nat> {
    match d
    case Free => None
    case Locked => None
    case WantsCv(c) => Some(c)
    case HasCv(c) => Some(c)
    case Notifying(c) => Some(c)
  }

  ghost predicate CallerGood(s: Locks, c: nat)
    requires c < |s.callers|
  {
    var x := s.callers[c];
    && (x.at.Pushing? || x.at.Clearing? <==> s.m == Some(TheClient(c)))
    && (x.at.Testing? <==> x.cv == Some(TheClient(c)))
    && (x.cv == Some(TheDispatcher) <==> s.dispatcher == HasCv(c))
    && (x.cv.Some? ==> x.cv.value == TheDispatcher || x.cv.value == TheClient(c))
    && (c in s.sync <==> InMap(x.at))
    && (!Waits(x.at) ==> x.isComputed)
    && (x.at.Asleep? && x.isComputed ==> s.dispatcher == Notifying(c))
  }

  ghost predicate DispatcherGood(s: Locks) {
    && (s.m == Some(TheDispatcher) <==> !s.dispatcher.Free?)
    && (Touched(s.dispatcher).Some? ==>
          var c := Touched(s.dispatcher).value;
          && c < |s.callers| && c in s.sync
          && (s.dispatcher.Notifying? ==> s.callers[c].isComputed))
  }

  ghost predicate LocksGood(s: Locks) {
    && DispatcherGood(s)
    && (forall c {:trigger CallerGood(s, c)} :: 0 <= c < |s.callers| ==> CallerGood(s, c))
    && (forall c :: c in s.sync ==> c < |s.callers|)
    && (s.m.Some? && s.m.value.TheClient? ==> s.m.value.c < |s.callers|)
  }

  lemma PushKeeps(s: Locks, move: Move)
    requires LocksGood(s) && Enabled(s, move) && (move.LockPush? || move.UnlockPush?)
    ensures LocksGood(Next(s, move))
  {
    var s' := Next(s, move);
    assert CallerGood(s, move.c);
    forall c | 0 <= c < |s'.callers|
      ensures CallerGood(s', c)
    {
      if c < |s.callers| {
        assert CallerGood(s, c);
      }
    }
  }

  lemma WaitKeeps(s: Locks, move: Move)
    requires LocksGood(s) && Enabled(s, move) && (move.LockCv? || move.Test? || move.Spurious?)
    ensures LocksGood(Next(s, move))
  {
    var s' := Next(s, move);
    assert CallerGood(s, move.c);
    forall c | 0 <= c < |s'.callers|
      ensures CallerGood(s', c)
    {
      if c < |s.callers| {
        assert CallerGood(s, c);
      }
    }
  }

  lemma ClearKeeps(s: Locks, move: Move)
    requires LocksGood(s) && Enabled(s, move) && (move.LockClear? || move.UnlockClear?)
    ensures LocksGood(Next(s, move))
  {
    var s' := Next(s, move);
    assert CallerGood(s, move.c);
    forall c | 0 <= c < |s'.callers|
      ensures CallerGood(s', c)
    {
      if c < |s.callers| {
        assert CallerGood(s, c);
      }
    }
  }

  lemma PassKeeps(s: Locks, move: Move)
    requires LocksGood(s) && Enabled(s, move) && (move.Arrive? || move.LockM? || move.UnlockM?)
    ensures LocksGood(Next(s, move))
  {
    var s' := Next(s, move);
    forall c | 0 <= c < |s'.callers|
      ensures CallerGood(s', c)
    {
      if c < |s.callers| {
        assert CallerGood(s, c);
      }
    }
  }

  lemma RootReplyKeeps(s: Locks, move: Move)
    requires LocksGood(s) && Enabled(s, move) && (move.RootReply?)
    ensures LocksGood(Next(s, move))
  {
    var s' := Next(s, move);
    assert CallerGood(s, move.c);
    forall c | 0 <= c < |s'.callers|
      ensures CallerGood(s', c)
    {
      if c < |s.callers| {
        assert CallerGood(s, c);
      }
    }
  }

  lemma NotifyKeeps(s: Locks, move: Move)
    requires LocksGood(s) && Enabled(s, move) && (move.LockCvOf? || move.SetComputed? || move.Notify?)
    ensures LocksGood(Next(s, move))
  {
    var s' := Next(s, move);
    assert CallerGood(s, s.dispatcher.c);
    forall c | 0 <= c < |s'.callers|
      ensures CallerGood(s', c)
    {
      if c < |s.callers| {
        assert CallerGood(s, c);
      }
    }
  }

  lemma MoveKeeps(s: Locks, move: Move)
    requires LocksGood(s) && Enabled(s, move)
    ensures LocksGood(Next(s, move))
  {
    match move {
      case LockPush(_) => PushKeeps(s, move);
      case UnlockPush(_) => PushKeeps(s, move);
      case LockCv(_) => WaitKeeps(s, move);
      case Test(_) => WaitKeeps(s, move);
      case Spurious(_) => WaitKeeps(s, move);
      case LockClear(_) => ClearKeeps(s, move);
      case UnlockClear(_) => ClearKeeps(s, move);
      case RootReply(_) => RootReplyKeeps(s, move);
      case LockCvOf => NotifyKeeps(s, move);
      case SetComputed => NotifyKeeps(s, move);
      case Notify => NotifyKeeps(s, move);
      case _ => PassKeeps(s, move);
    }
  }

  lemma {:induction false} RunsAreGood(moves: seq<Move>)
    requires Run(moves).Some?
    ensures LocksGood(Run(moves).value)
  {
    if moves != [] {
      RunsAreGood(moves[..|moves| - 1]);
      MoveKeeps(Run(moves[..|moves| - 1]).value, moves[|moves| - 1]);
    }
  }

  // ---------- what it means ----------

  /** Every reference in the map, and every SyncData the dispatcher is using, belongs to a call that
      has not got past ClearProblem; the notification is over before the frame can end. */
  lemma ReferencesAreLive(moves: seq<Move>, c: nat)
    requires Run(moves).Some?
    requires c in Run(moves).value.sync || Touched(Run(moves).value.dispatcher) == Some(c)
    ensures var s := Run(moves).value;
            c < |s.callers| && !s.callers[c].at.Arrived? && !s.callers[c].at.Clearing? && !s.callers[c].at.Gone?
  {
    RunsAreGood(moves);
    assert CallerGood(Run(moves).value, c);
  }

  /** A call leaves its wait only once is_computed is set, and a sleeper whose flag is set is about to
      be notified: no wake-up is lost. */
  lemma LeavesOnlyComputed(moves: seq<Move>, c: nat)
    requires Run(moves).Some? && c < |Run(moves).value.callers|
    ensures var s := Run(moves).value;
            && (!Waits(s.callers[c].at) ==> s.callers[c].isComputed)
            && (s.callers[c].at.Asleep? && s.callers[c].isComputed ==> s.dispatcher == Notifying(c))
  {
    RunsAreGood(moves);
    assert CallerGood(Run(moves).value, c);
  }

  /** Mutual exclusion: at most one agent is inside a block under m_, and inside one under cv_m. */
  lemma MutualExclusion(moves: seq<Move>, c: nat, e: nat)
    requires Run(moves).Some? && c < |Run(moves).value.callers| && e < |Run(moves).value.callers|
    ensures var s := Run(moves).value;
            && (s.callers[c].at.Pushing? || s.callers[c].at.Clearing? ==>
                  s.dispatcher.Free? && (s.callers[e].at.Pushing? || s.callers[e].at.Clearing? ==> e == c))
            && !(s.callers[c].at.Testing? && s.dispatcher == HasCv(c))
  {
    RunsAreGood(moves);
    assert CallerGood(Run(moves).value, c) && CallerGood(Run(moves).value, e);
  }

  /** Steps until m_ is free. */
  function Distance(s: Locks): nat {
    match s.m
    case None => 0
    case Some(TheClient(_)) => 1
    case Some(TheDispatcher) =>
      match s.dispatcher
      case Notifying(_) => 2
      case HasCv(_) => 3
      case WantsCv(c) => if c < |s.callers| && s.callers[c].cv.None? then 4 else 5
      case _ => 1
  }

  /** The agent that makes a move. */
  function Mover(s: Locks, move: Move): Option<Agent> {
    match move
    case Arrive => None
    case LockPush(c) => Some(TheClient(c))
    case UnlockPush(c) => Some(TheClient(c))
    case LockCv(c) => Some(TheClient(c))
    case Test(c) => Some(TheClient(c))
    case Spurious(c) => None
    case LockClear(c) => Some(TheClient(c))
    case UnlockClear(c) => Some(TheClient(c))
    case _ => Some(TheDispatcher)
  }

  /** No deadlock: while m_ is held its holder can move, or the holder of the cv_m it waits for can,
      and that move brings the release of m_ nearer. */
  lemma LockIsReleased(moves: seq<Move>) returns (move: Move)
    requires Run(moves).Some? && Run(moves).value.m.Some?
    ensures var s := Run(moves).value;
            && Enabled(s, move) && Distance(Next(s, move)) < Distance(s)
            && Mover(s, move).Some?
            && (Mover(s, move) == s.m ||
                (s.dispatcher.WantsCv? && s.dispatcher.c < |s.callers| && Mover(s, move) == s.callers[s.dispatcher.c].cv))
  {
    RunsAreGood(moves);
    var s := Run(moves).value;
    match s.m.value {
      case TheClient(c) =>
        assert CallerGood(s, c);
        move := if s.callers[c].at.Pushing? then UnlockPush(c) else UnlockClear(c);
      case TheDispatcher =>
        match s.dispatcher {
          case Locked => move := UnlockM;
          case WantsCv(c) =>
            assert CallerGood(s, c);
            move := if s.callers[c].cv.None? then LockCvOf else Test(c);
          case HasCv(c) => move := SetComputed;
          case Notifying(c) => move := Notify;
        }
    }
  }

  /** A held cv_m is released by the very next move of its holder. */
  lemma CvIsReleased(moves: seq<Move>, c: nat) returns (move: Move)
    requires Run(moves).Some? && c < |Run(moves).value.callers| && Run(moves).value.callers[c].cv.Some?
    ensures var s := Run(moves).value;
            Enabled(s, move) && Mover(s, move) == s.callers[c].cv && Next(s, move).callers[c].cv.None?
  {
    RunsAreGood(moves);
    var s := Run(moves).value;
    assert CallerGood(s, c);
    move := if s.callers[c].cv.value == TheDispatcher then SetComputed else Test(c);
  }

  // ---------- the moves of whole blocks ----------

  lemma Then(moves: seq<Move>, s: Locks, more: seq<Move>, move: Move) returns (s': Locks)
    requires Run(moves + more) == Some(s) && Enabled(s, move)
    ensures s' == Next(s, move) && Run(moves + (more + [move])) == Some(s')
  {
    s' := Next(s, move);
    RunNext(moves + more, s, move);
    assert moves + more + [move] == moves + (more + [move]);
  }

  lemma PassMoves(moves: seq<Move>, s: Locks)
    requires Run(moves) == Some(s) && s.m.None? && s.dispatcher.Free?
    ensures Run(moves + ([LockM] + [UnlockM])) == Some(s)
  {
    assert moves + [] == moves;
    var s1 := Then(moves, s, [], LockM);
    var s2 := Then(moves, s1, [LockM], UnlockM);
  }

  /** A further caller, with what it holds. */
  function Joined(s: Locks, at: ClientAt, cv: Option<Agent>, m: Option<Agent>, sync: set<nat>): Locks {
    s.(callers := s.callers + [Caller(at, false, cv)], m := m, sync := sync)
  }

  lemma LastCaller(callers: seq<Caller>, x: Caller, y: Caller)
    ensures (callers + [x])[|callers| := y] == callers + [y]
  {
  }

  lemma PushMoves(moves: seq<Move>, s: Locks)
    requires Run(moves) == Some(s) && s.m.None? && s.dispatcher.Free?
    ensures var c := |s.callers|;
            Run(moves + ([Arrive] + [LockPush(c)] + [UnlockPush(c)] + [LockCv(c)] + [Test(c)]))
            == Some(Joined(s, Asleep, None, None, s.sync + {c}))
  {
    var c := |s.callers|;
    assert moves + [] == moves;
    var s1 := Then(moves, s, [], Arrive);
    var s2 := Then(moves, s1, [Arrive], LockPush(c));
    LastCaller(s.callers, Caller(Arrived, false, None), Caller(Pushing, false, None));
    assert s2 == Joined(s, Pushing, None, Some(TheClient(c)), s.sync + {c});
    var s3 := Then(moves, s2, [Arrive] + [LockPush(c)], UnlockPush(c));
    LastCaller(s.callers, Caller(Pushing, false, None), Caller(Pushed, false, None));
    assert s3 == Joined(s, Pushed, None, None, s.sync + {c});
    var s4 := Then(moves, s3, [Arrive] + [LockPush(c)] + [UnlockPush(c)], LockCv(c));
    LastCaller(s.callers, Caller(Pushed, false, None), Caller(Testing, false, Some(TheClient(c))));
    assert s4 == Joined(s, Testing, Some(TheClient(c)), None, s.sync + {c});
    var s5 := Then(moves, s4, [Arrive] + [LockPush(c)] + [UnlockPush(c)] + [LockCv(c)], Test(c));
    LastCaller(s.callers, Caller(Testing, false, Some(TheClient(c))), Caller(Asleep, false, None));
  }

  /** The block of a root's reply: the caller sleeps and is woken, or has been woken already by an
      earlier reply and has not run since. */
  lemma RootMoves(moves: seq<Move>, s: Locks, c: nat)
    requires Run(moves) == Some(s) && s.m.None? && s.dispatcher.Free?
    requires c < |s.callers| && c in s.sync && s.callers[c] in {Caller(Asleep, false, None), Caller(Woken, true, None)}
    ensures Run(moves + ([LockM] + [RootReply(c)] + [LockCvOf] + [SetComputed] + [Notify] + [UnlockM]))
            == Some(s.(callers := s.callers[c := Caller(Woken, true, None)]))
  {
    var at, b := s.callers[c].at, s.callers[c].isComputed;
    assert moves + [] == moves;
    var s1 := Then(moves, s, [], LockM);
    var s2 := Then(moves, s1, [LockM], RootReply(c));
    var s3 := Then(moves, s2, [LockM] + [RootReply(c)], LockCvOf);
    assert s3 == s.(m := Some(TheDispatcher), dispatcher := HasCv(c), callers := s.callers[c := Caller(at, b, Some(TheDispatcher))]);
    var s4 := Then(moves, s3, [LockM] + [RootReply(c)] + [LockCvOf], SetComputed);
    Overwrite(s.callers, c, Caller(at, b, Some(TheDispatcher)), Caller(at, true, None));
    assert s4 == s.(m := Some(TheDispatcher), dispatcher := Notifying(c), callers := s.callers[c := Caller(at, true, None)]);
    var s5 := Then(moves, s4, [LockM] + [RootReply(c)] + [LockCvOf] + [SetComputed], Notify);
    Overwrite(s.callers, c, Caller(at, true, None), Caller(Woken, true, None));
    assert s5 == s.(m := Some(TheDispatcher), dispatcher := Locked, callers := s.callers[c := Caller(Woken, true, None)]);
    var s6 := Then(moves, s5, [LockM] + [RootReply(c)] + [LockCvOf] + [SetComputed] + [Notify], UnlockM);
  }

  lemma Overwrite(callers: seq<Caller>, c: nat, x: Caller, y: Caller)
    requires c < |callers|
    ensures callers[c := x][c := y] == callers[c := y]
  {
  }

  lemma ClearMoves(moves: seq<Move>, s: Locks, c: nat)
    requires Run(moves) == Some(s) && s.m.None? && s.dispatcher.Free?
    requires c < |s.callers| && s.callers[c] == Caller(Woken, true, None)
    ensures Run(moves + ([LockCv(c)] + [Test(c)] + [LockClear(c)] + [UnlockClear(c)]))
            == Some(s.(callers := s.callers[c := Caller(Gone, true, None)], sync := s.sync - {c}))
  {
    assert moves + [] == moves;
    var s1 := Then(moves, s, [], LockCv(c));
    var s2 := Then(moves, s1, [LockCv(c)], Test(c));
    var s3 := Then(moves, s2, [LockCv(c)] + [Test(c)], LockClear(c));
    var s4 := Then(moves, s3, [LockCv(c)] + [Test(c)] + [LockClear(c)], UnlockClear(c));
    assert s4.callers == s.callers[c := Caller(Gone, true, None)];
  }
}
