/** Shutdown always completes: once Audio_end has stored Ending and its SendMessage has
    returned, nothing the threads or the callers do can keep the joins from returning. */
module ProtocolShutdown {
  import opened Lifecycle
  import opened Protocol
  import opened ProtocolControl

  /** Steps left for the task, at most, once it can no longer start over. */
  function TaskRank(t: Task): nat {
    match t
    case AtLock => 12
    case AtSpawn => 11
    case Waiting(_) => 10
    case AtRelock => 9
    case AtGet => 8
    case Handling(_) => 7
    case AtNextLock => 6
    case AtEndLock => 6
    case AtCheck => 5
    case AtEnding => 4
    case AtStop => 3
    case AtJoin => 2
    case _ => 0
  }

  /** Steps, at most, until the task lets go of the message mutex. */
  function HoldRank(t: Task): nat {
    match t
    case AtSpawn => 3
    case AtCheck => 2
    case AtGet => 1
    case AtEnding => 1
    case _ => 0
  }

  /** Unless Audio_start is still running, the task that holds the message mutex is never
      blocked and lets go of it after at most three steps of its own, whatever the others do. */
  lemma LockIsReleased(c: Config, a: Action, s: State, t: State)
    requires ConfigOk(c) && ControlInv(c, s) && Step(c, a, s, t) && s.control != Starting && HoldsLock(s.task)
    ensures TaskReady(s)
    ensures a.TaskStep? ==> HoldRank(t.task) < HoldRank(s.task)
    ensures !a.TaskStep? ==> t.task == s.task
    ensures HoldsLock(t.task) <==> HoldRank(t.task) > 0
  {
  }

  /** Steps left for the player once the task has told it to stop. */
  function PlayerRank(p: PlayerPc): nat {
    match p
    case AtPoll => 4
    case AtHead => 3
    case AtClear => 2
    case AtSilence => 1
    case _ => 0
  }

  function Measure(s: State): nat {
    5 * TaskRank(s.task) + if s.task == AtJoin then PlayerRank(s.player) else 0
  }

  lemma JoiningTaskStep(c: Config, a: Action, s: State, t: State)
    requires ConfigOk(c) && ControlInv(c, s) && Step(c, a, s, t) && s.control == Joining
    requires a.TaskStep? || a.SpuriousWakeup?
    ensures t.control == Joining && Measure(t) < Measure(s)
    ensures s.task == AtJoin ==> t.task == TaskDone
  {
  }

  lemma JoiningPlayerStep(c: Config, s: State, t: State)
    requires ConfigOk(c) && ControlInv(c, s) && Step(c, PlayerStep, s, t) && s.control == Joining
    ensures t.control == Joining && t.task == s.task && Measure(t) <= Measure(s)
    ensures Measure(t) < Measure(s) <==> s.task == AtJoin
  {
  }

  lemma JoiningOtherStep(c: Config, a: Action, s: State, t: State)
    requires ConfigOk(c) && ControlInv(c, s) && Step(c, a, s, t) && s.control == Joining
    requires !a.TaskStep? && !a.SpuriousWakeup? && !a.PlayerStep?
    ensures t.control == Joining || (a.EndJoin? && s.task == TaskDone)
    ensures Measure(t) == Measure(s) && (t.task == s.task || s.task.Waiting?)
  {
  }

  /** While Audio_end is joining: every task step makes progress, a player step does exactly
      when the task waits for the player, and no step of anyone undoes any. */
  lemma JoiningStep(c: Config, a: Action, s: State, t: State)
    requires ConfigOk(c) && ControlInv(c, s) && Step(c, a, s, t) && s.control == Joining
    ensures t.control == Joining || (a.EndJoin? && s.task == TaskDone)
    ensures Measure(t) <= Measure(s)
    ensures a.TaskStep? || a.SpuriousWakeup? ==> Measure(t) < Measure(s)
    ensures a.PlayerStep? ==> (Measure(t) < Measure(s) <==> s.task == AtJoin)
    ensures s.task == AtJoin ==> t.task == AtJoin || t.task == TaskDone
  {
    match a
    case TaskStep => JoiningTaskStep(c, a, s, t);
    case SpuriousWakeup => JoiningTaskStep(c, a, s, t);
    case PlayerStep => JoiningPlayerStep(c, s, t);
    case _ => JoiningOtherStep(c, a, s, t);
  }

  /** No measure could do better: until the task has told the player to stop, two player
      steps bring the player back to the head of its loop and leave phases, control and
      task as they were. */
  lemma PlayerLoopsUntilTold(c: Config, s: State, t: State, u: State)
    requires ConfigOk(c) && ControlInv(c, s) && s.player == AtHead && s.playerPhase == Running
    requires Step(c, PlayerStep, s, t) && Step(c, PlayerStep, t, u)
    ensures (u.player, u.playerPhase, u.phase, u.control) == (s.player, s.playerPhase, s.phase, s.control)
    ensures u.task == s.task && u.queue == s.queue && u.callers == s.callers
  {
  }

  /** No lost wakeup: the task is never left waiting without a signal, and always has a
      step to take, unless it has finished or joins a player that has one. */
  lemma JoiningNeverStuck(c: Config, s: State)
    requires ConfigOk(c) && ControlInv(c, s) && s.control == Joining && s.task != TaskDone
    ensures s.task != Waiting(false)
    ensures TaskReady(s) || (s.task == AtJoin && PlayerReady(s))
  {
  }

  predicate TaskServed(run: nat -> State, act: nat -> Action, j: nat) {
    act(j).TaskStep? || !TaskReady(run(j))
  }

  predicate PlayerServed(run: nat -> State, act: nat -> Action, j: nat) {
    act(j).PlayerStep? || !PlayerReady(run(j))
  }

  ghost predicate TaskServedFrom(run: nat -> State, act: nat -> Action, i: nat) {
    exists j: nat :: i <= j && TaskServed(run, act, j)
  }

  ghost predicate PlayerServedFrom(run: nat -> State, act: nat -> Action, i: nat) {
    exists j: nat :: i <= j && PlayerServed(run, act, j)
  }

  /** Weak fairness: a thread that could always take a step takes one eventually. */
  ghost predicate Fair(run: nat -> State, act: nat -> Action) {
    && (forall i: nat :: TaskServedFrom(run, act, i))
    && (forall i: nat :: PlayerServedFrom(run, act, i))
  }

  ghost predicate TaskFinishesBy(run: nat -> State, i: nat, j: nat) {
    exists k: nat :: i <= k <= j && run(k).task == TaskDone
  }

  /** JoiningStep at one point of a run. */
  lemma JoiningNext(c: Config, run: nat -> State, act: nat -> Action, k: nat)
    requires ConfigOk(c) && Execution(c, run, act) && run(k).control == Joining && run(k).task != TaskDone
    ensures run(k + 1).control == Joining && Measure(run(k + 1)) <= Measure(run(k))
    ensures act(k).TaskStep? || (act(k).PlayerStep? && run(k).task == AtJoin) ==>
              Measure(run(k + 1)) < Measure(run(k))
    ensures run(k).task == AtJoin ==> run(k + 1).task == AtJoin || run(k + 1).task == TaskDone
  {
    RunControl(c, run, act, k);
    assert StepAt(c, run, act, k);
    JoiningStep(c, act(k), run(k), run(k + 1));
  }

  /** As long as the task has not finished, Audio_end stays in its join and no progress is
      undone. */
  lemma {:induction false} JoiningLasts(c: Config, run: nat -> State, act: nat -> Action, i: nat, j: nat)
    requires ConfigOk(c) && Execution(c, run, act) && run(i).control == Joining && i <= j
    requires !TaskFinishesBy(run, i, j)
    ensures run(j).control == Joining && run(j).phase == Ending && Measure(run(j)) <= Measure(run(i))
    ensures run(i).task == AtJoin ==> run(j).task == AtJoin
    decreases j
  {
    RunControl(c, run, act, j);
    assert run(j).task != TaskDone;
    if i == j {
    } else {
      assert !TaskFinishesBy(run, i, j - 1);
      JoiningLasts(c, run, act, i, j - 1);
      JoiningNext(c, run, act, j - 1);
    }
  }

  /** A step of progress at j leads to a later state that is closer to the end. */
  lemma ProgressAt(c: Config, run: nat -> State, act: nat -> Action, i: nat, j: nat)
    requires ConfigOk(c) && Execution(c, run, act) && run(i).control == Joining && i <= j
    requires !TaskFinishesBy(run, i, j)
    requires act(j).TaskStep? || (act(j).PlayerStep? && run(j).task == AtJoin)
    ensures run(j + 1).control == Joining && Measure(run(j + 1)) < Measure(run(i))
  {
    JoiningLasts(c, run, act, i, j);
    assert run(j).task != TaskDone;
    JoiningNext(c, run, act, j);
  }

  /** The thread that has to move next. */
  predicate PlayersTurn(s: State) {
    s.task == AtJoin && s.player != PlayerDone
  }

  /** Fairness brings either the end of the task or a later state that is closer to it. */
  lemma SomeoneMoves(c: Config, run: nat -> State, act: nat -> Action, i: nat) returns (j: nat)
    requires ConfigOk(c) && Execution(c, run, act) && Fair(run, act)
    requires run(i).control == Joining && run(i).task != TaskDone
    ensures i <= j
    ensures TaskFinishesBy(run, i, j) || (run(j).control == Joining && Measure(run(j)) < Measure(run(i)))
  {
    RunControl(c, run, act, i);
    if PlayersTurn(run(i)) {
      assert PlayerServedFrom(run, act, i);
      j :| i <= j && PlayerServed(run, act, j);
    } else {
      assert TaskServedFrom(run, act, i);
      j :| i <= j && TaskServed(run, act, j);
    }
    if !TaskFinishesBy(run, i, j) {
      JoiningLasts(c, run, act, i, j);
      RunControl(c, run, act, j);
      if act(j).TaskStep? || (act(j).PlayerStep? && run(j).task == AtJoin) {
        ProgressAt(c, run, act, i, j);
        j := j + 1;
      } else {
        // the thread that was due had nothing to do: the other one has overtaken it
        assert run(j).task != TaskDone;
        JoiningNeverStuck(c, run(j));
      }
    }
  }

  /** Under weak fairness the task finishes, and with it the join of Audio_end returns,
      however the callers, the player and spurious wakeups interleave and whether or not
      the full queue refused the END message. */
  lemma {:induction false} ShutdownCompletes(c: Config, run: nat -> State, act: nat -> Action, i: nat)
    requires ConfigOk(c) && Execution(c, run, act) && Fair(run, act) && run(i).control == Joining
    ensures exists j: nat :: i <= j && run(j).task == TaskDone && Enabled(EndJoin, run(j))
    decreases Measure(run(i))
  {
    if run(i).task == TaskDone {
      assert Enabled(EndJoin, run(i));
    } else {
      var j := SomeoneMoves(c, run, act, i);
      if TaskFinishesBy(run, i, j) {
        var k := FirstFinish(run, i, j);
        JoinWaits(c, run, act, i, k);
        assert Enabled(EndJoin, run(k));
      } else {
        ShutdownCompletes(c, run, act, j);
      }
    }
  }

  lemma {:induction false} FirstFinish(run: nat -> State, i: nat, j: nat) returns (k: nat)
    requires TaskFinishesBy(run, i, j) && run(i).task != TaskDone
    ensures i < k <= j && run(k).task == TaskDone && !TaskFinishesBy(run, i, k - 1)
    decreases j
  {
    var m: nat :| i <= m <= j && run(m).task == TaskDone;
    if TaskFinishesBy(run, i, m - 1) {
      k := FirstFinish(run, i, m - 1);
    } else {
      k := m;
    }
  }

  /** Audio_end is still joining when the task finishes. */
  lemma JoinWaits(c: Config, run: nat -> State, act: nat -> Action, i: nat, k: nat)
    requires ConfigOk(c) && Execution(c, run, act) && run(i).control == Joining
    requires i < k && run(k).task == TaskDone && !TaskFinishesBy(run, i, k - 1)
    ensures run(k).control == Joining
  {
    JoiningLasts(c, run, act, i, k - 1);
    assert run(k - 1).task != TaskDone;
    JoiningNext(c, run, act, k - 1);
  }

  // ---- From the store of Ending to the return of the joins ----

  predicate EnabledAt(run: nat -> State, a: Action, j: nat) {
    Enabled(a, run(j))
  }

  ghost predicate EnabledFrom(run: nat -> State, a: Action, i: nat) {
    exists j: nat :: i <= j && EnabledAt(run, a, j)
  }

  ghost predicate TakenFrom(act: nat -> Action, a: Action, i: nat) {
    exists j: nat :: i <= j && act(j) == a
  }

  /** Strong fairness: a step that can be taken again and again is taken. */
  ghost predicate StronglyFair(run: nat -> State, act: nat -> Action, a: Action) {
    (forall i: nat :: EnabledFrom(run, a, i)) ==> forall i: nat :: TakenFrom(act, a, i)
  }

  lemma SendingStep(c: Config, a: Action, s: State, t: State)
    requires ConfigOk(c) && ControlInv(c, s) && Step(c, a, s, t) && s.control == Sending && a != EndSend
    ensures t.control == Sending
  {
  }

  /** Audio_end waits to send until it does. */
  lemma {:induction false} SendingLasts(c: Config, run: nat -> State, act: nat -> Action, i: nat, j: nat)
    requires ConfigOk(c) && Execution(c, run, act) && run(i).control == Sending && i <= j
    requires !TakenFrom(act, EndSend, i)
    ensures run(j).control == Sending
    decreases j
  {
    if i == j {
    } else {
      SendingLasts(c, run, act, i, j - 1);
      SendingNext(c, run, act, j - 1);
    }
  }

  lemma SendingNext(c: Config, run: nat -> State, act: nat -> Action, k: nat)
    requires ConfigOk(c) && Execution(c, run, act) && run(k).control == Sending && act(k) != EndSend
    ensures run(k + 1).control == Sending
  {
    RunControl(c, run, act, k);
    assert StepAt(c, run, act, k);
    SendingStep(c, act(k), run(k), run(k + 1));
  }

  // ---- The message mutex becomes free ----

  predicate StartingAt(run: nat -> State, k: nat) {
    run(k).control == Starting
  }

  predicate FreeAt(run: nat -> State, k: nat) {
    LockFree(run(k))
  }

  ghost predicate FreeBetween(run: nat -> State, i: nat, j: nat) {
    exists k: nat :: i <= k <= j && FreeAt(run, k)
  }

  ghost predicate FreeFrom(run: nat -> State, i: nat) {
    exists k: nat :: i <= k && FreeAt(run, k)
  }

  /** LockIsReleased at one point of a run. */
  lemma LockNext(c: Config, run: nat -> State, act: nat -> Action, k: nat)
    requires ConfigOk(c) && Execution(c, run, act) && !StartingAt(run, k) && !FreeAt(run, k)
    ensures TaskReady(run(k))
    ensures HoldRank(run(k + 1).task) <= HoldRank(run(k).task)
    ensures act(k).TaskStep? ==> HoldRank(run(k + 1).task) < HoldRank(run(k).task)
  {
    RunControl(c, run, act, k);
    assert StepAt(c, run, act, k);
    LockIsReleased(c, act(k), run(k), run(k + 1));
  }

  lemma {:induction false} LockHeldLasts(c: Config, run: nat -> State, act: nat -> Action, m: nat, j: nat)
    requires ConfigOk(c) && Execution(c, run, act) && m <= j
    requires (forall k | m <= k :: !StartingAt(run, k)) && !FreeBetween(run, m, j)
    ensures !FreeAt(run, j) && HoldRank(run(j).task) <= HoldRank(run(m).task)
    decreases j
  {
    if m == j {
    } else {
      assert !FreeBetween(run, m, j - 1);
      LockHeldLasts(c, run, act, m, j - 1);
      LockNext(c, run, act, j - 1);
    }
    assert !FreeAt(run, j);
  }

  /** Once Audio_start is over, the message mutex becomes free again and again. */
  lemma {:induction false} LockBecomesFree(c: Config, run: nat -> State, act: nat -> Action, m: nat)
    requires ConfigOk(c) && Execution(c, run, act) && Fair(run, act)
    requires forall k | m <= k :: !StartingAt(run, k)
    ensures FreeFrom(run, m)
    decreases HoldRank(run(m).task)
  {
    if FreeAt(run, m) {
    } else {
      assert TaskServedFrom(run, act, m);
      var n: nat :| m <= n && TaskServed(run, act, n);
      if FreeBetween(run, m, n) {
        var k: nat :| m <= k <= n && FreeAt(run, k);
      } else {
        LockHeldLasts(c, run, act, m, n);
        LockNext(c, run, act, n);
        LockBecomesFree(c, run, act, n + 1);
        var k: nat :| n + 1 <= k && FreeAt(run, k);
      }
    }
  }

  /** The END message is sent, or refused by a full queue, and the join begins. */
  lemma SendingEnds(c: Config, run: nat -> State, act: nat -> Action, i: nat) returns (j: nat)
    requires ConfigOk(c) && Execution(c, run, act) && Fair(run, act) && StronglyFair(run, act, EndSend)
    requires run(i).control == Sending
    ensures i < j && run(j).control == Joining
  {
    if !TakenFrom(act, EndSend, i) {
      forall k | i <= k ensures !StartingAt(run, k) && run(k).control == Sending {
        SendingLasts(c, run, act, i, k);
      }
      forall m: nat ensures EnabledFrom(run, EndSend, m) {
        var n := if m < i then i else m;
        LockBecomesFree(c, run, act, n);
        var k: nat :| n <= k && FreeAt(run, k);
        assert EnabledAt(run, EndSend, k);
      }
    }
    var k: nat :| i <= k && act(k) == EndSend;
    assert StepAt(c, run, act, k);
    j := k + 1;
  }

  lemma JoinedNext(c: Config, run: nat -> State, act: nat -> Action, k: nat)
    requires ConfigOk(c) && Execution(c, run, act) && act(k) != EndJoin
    requires run(k).control == Joining && run(k).task == TaskDone
    ensures run(k + 1).control == Joining && run(k + 1).task == TaskDone
  {
    RunControl(c, run, act, k);
    assert StepAt(c, run, act, k);
    JoiningStep(c, act(k), run(k), run(k + 1));
  }

  lemma {:induction false} JoinedLasts(c: Config, run: nat -> State, act: nat -> Action, i: nat, j: nat)
    requires ConfigOk(c) && Execution(c, run, act) && i <= j && !TakenFrom(act, EndJoin, i)
    requires run(i).control == Joining && run(i).task == TaskDone
    ensures EnabledAt(run, EndJoin, j)
    decreases j
  {
    if i == j {
    } else {
      JoinedLasts(c, run, act, i, j - 1);
      JoinedNext(c, run, act, j - 1);
    }
  }

  /** Once the END message is sent or refused, the join of Audio_end returns. */
  lemma JoiningEnds(c: Config, run: nat -> State, act: nat -> Action, i: nat) returns (j: nat)
    requires ConfigOk(c) && Execution(c, run, act) && Fair(run, act) && StronglyFair(run, act, EndJoin)
    requires run(i).control == Joining
    ensures i < j && run(j).control == Closing
  {
    ShutdownCompletes(c, run, act, i);
    var k: nat :| i <= k && run(k).task == TaskDone && Enabled(EndJoin, run(k));
    if !TakenFrom(act, EndJoin, k) {
      forall m: nat ensures EnabledFrom(run, EndJoin, m) {
        var n := if m < k then k else m;
        JoinedLasts(c, run, act, k, n);
        assert m <= n && EnabledAt(run, EndJoin, n);
      }
    }
    var l: nat :| k <= l && act(l) == EndJoin;
    assert StepAt(c, run, act, l);
    j := l + 1;
  }

  /** From the store of Ending to the return of both joins: with weak fairness of the two
      threads and strong fairness of the calling thread, every Audio_end called on a running
      component gets through its send and its join, whatever the queue holds and however
      callers and spurious wakeups interleave. */
  lemma AudioEndGetsThrough(c: Config, run: nat -> State, act: nat -> Action, i: nat)
    requires ConfigOk(c) && Execution(c, run, act) && Fair(run, act)
    requires StronglyFair(run, act, EndSend) && StronglyFair(run, act, EndJoin)
    requires run(i).control == Sending
    ensures exists j: nat :: i < j && run(j).control == Closing
  {
    var j := SendingEnds(c, run, act, i);
    var k := JoiningEnds(c, run, act, j);
  }
}
