/** Invariants of the threads and their program counters, and what they mean: ordered
    teardown, at most one late message, and no lost wakeup. */
module ProtocolControl {
  import opened Lifecycle
  import opened Protocol
  import P = Player

  predicate MailEmpty(c: Config, s: State) {
    s.mailbox.track == c.cat.maxTracks
  }

  /** Neither thread runs. */
  predicate ThreadsOff(s: State) {
    || (s.task == NoTask && s.player == NoPlayer)
    || (s.task == TaskDone && s.player == PlayerDone && s.playerPhase == Ended)
  }

  predicate Quiescent(c: Config, s: State) {
    ThreadsOff(s) && MailEmpty(c, s) && s.queue == [] && s.callers == multiset{}
  }

  /** The task is between entering its loop and leaving it. */
  predicate InLoop(t: Task) {
    t.AtCheck? || t.AtGet? || t.Waiting? || t.AtRelock? || t.Handling? || t.AtNextLock?
  }

  predicate NoEndMessage(s: State) {
    EndMsg !in s.queue && s.task != Handling(EndMsg)
  }

  ghost predicate PhaseInv(c: Config, s: State) {
    match s.phase
    case Ended => s.control == Free && Quiescent(c, s)
    case Inited =>
      if s.control == Starting then
        && (s.task == AtLock || s.task == AtSpawn || s.task == AtCheck)
        && MailEmpty(c, s) && s.queue == [] && s.callers == multiset{}
      else (s.control == Free || s.control == Closing) && Quiescent(c, s)
    case Running =>
      && s.control == Free
      && (s.task == AtLock || s.task == AtSpawn || InLoop(s.task))
      && NoEndMessage(s)
    case Ending =>
      if s.control == Sending || s.control == Joining then s.task != NoTask
      else
        && s.task == TaskDone
        && (s.control == Free || s.control == Closing)
        && (s.control == Free ==> s.callers == multiset{})
  }

  ghost predicate ThreadInv(c: Config, s: State) {
    && (s.task == NoTask || s.task == AtLock || s.task == AtSpawn ==> s.player == NoPlayer)
    && (InLoop(s.task) || s.task == AtEndLock || s.task == AtEnding || s.task == AtStop ==>
          s.playerPhase == Running && (s.player == AtHead || s.player == AtPoll))
    && (s.task == AtJoin ==> s.playerPhase == Ending && s.player != NoPlayer)
    && (s.task == TaskDone ==> s.playerPhase == Ended && s.player == PlayerDone)
    && (s.player == NoPlayer || s.player == AtSilence || s.player == PlayerDone ==> MailEmpty(c, s))
    && (s.player == AtHead || s.player == AtPoll ==> P.LocalsOk(c.cat, s.locals))
  }

  /** The task is about to take a message, or waits for one. */
  predicate WantsMessage(t: Task) {
    t.AtGet? || t.Waiting? || t.AtRelock?
  }

  ghost predicate QueueInv(c: Config, s: State) {
    && |s.queue| <= c.capacity
    // no lost wakeup: only an empty queue leaves the task waiting unsignalled
    && (s.task == Waiting(false) ==> s.queue == [])
    // and once Audio_end has sent, full queue or not, there is a message to take
    && (s.control == Joining && WantsMessage(s.task) ==> s.queue != [])
  }

  ghost predicate ControlInv(c: Config, s: State) {
    PhaseInv(c, s) && ThreadInv(c, s) && QueueInv(c, s)
  }

  lemma InitialControl(c: Config, s: State)
    requires ConfigOk(c) && Initial(c, s)
    ensures ControlInv(c, s)
  {
  }

  lemma ControlStepKeepsPhase(c: Config, a: Action, s: State, t: State)
    requires a.InitCall? || a.StartCall? || a.StartStore? || a.EndCall? || a.EndSend? || a.EndJoin? || a.EndClose?
    requires ConfigOk(c) && ControlInv(c, s) && Enabled(a, s) && t == ControlApply(c, a, s)
    ensures PhaseInv(c, t)
  {
  }

  lemma ControlStepKeepsThread(c: Config, a: Action, s: State, t: State)
    requires a.InitCall? || a.StartCall? || a.StartStore? || a.EndCall? || a.EndSend? || a.EndJoin? || a.EndClose?
    requires ConfigOk(c) && ControlInv(c, s) && Enabled(a, s) && t == ControlApply(c, a, s)
    ensures ThreadInv(c, t)
  {
  }

  lemma ControlStepKeepsQueue(c: Config, a: Action, s: State, t: State)
    requires a.InitCall? || a.StartCall? || a.StartStore? || a.EndCall? || a.EndSend? || a.EndJoin? || a.EndClose?
    requires ConfigOk(c) && ControlInv(c, s) && Enabled(a, s) && t == ControlApply(c, a, s)
    ensures QueueInv(c, t)
  {
  }

  /** A call that has passed its check keeps a Running component Running. */
  lemma PlayCheckKeeps(c: Config, a: Action, s: State, t: State)
    requires ControlInv(c, s) && a.PlayCheck? && t == CallerApply(c, a, s)
    ensures ControlInv(c, t)
  {
    assert s.phase == Running || t == s;
  }

  /** A send changes the callers, and when there is room the queue and a waiting task. */
  lemma PlaySendMoves(c: Config, a: Action, s: State, t: State)
    requires a.PlaySend? && Enabled(a, s) && t == CallerApply(c, a, s)
    ensures s.callers != multiset{} && SendLeaves(s, t)
    ensures |s.queue| < c.capacity ==> t.queue == s.queue + [PlayMsg(a.track, |s.h.accepted|)]
    ensures |s.queue| < c.capacity && s.task.Waiting? ==> t.task == Waiting(true)
    ensures |s.queue| < c.capacity && !s.task.Waiting? ==> t.task == s.task
    ensures |s.queue| >= c.capacity ==> t.queue == s.queue && t.task == s.task
  {
  }

  predicate SendLeaves(s: State, t: State) {
    && (t.phase, t.control, t.playerPhase, t.player, t.mailbox, t.locals)
       == (s.phase, s.control, s.playerPhase, s.player, s.mailbox, s.locals)
  }

  lemma PlaySendKeepsPhase(c: Config, s: State, t: State, more: seq<Msg>)
    requires PhaseInv(c, s) && s.callers != multiset{} && SendLeaves(s, t)
    requires t.queue == s.queue + more && EndMsg !in more
    requires t.task == s.task || (s.task.Waiting? && t.task.Waiting?)
    ensures PhaseInv(c, t)
  {
  }

  lemma PlaySendKeeps(c: Config, a: Action, s: State, t: State)
    requires ConfigOk(c) && ControlInv(c, s) && a.PlaySend? && Enabled(a, s) && t == CallerApply(c, a, s)
    ensures ControlInv(c, t)
  {
    PlaySendMoves(c, a, s, t);
    if |s.queue| < c.capacity {
      PlaySendKeepsPhase(c, s, t, [PlayMsg(a.track, |s.h.accepted|)]);
    } else {
      assert s.queue + [] == s.queue;
      PlaySendKeepsPhase(c, s, t, []);
    }
    PlaySendKeepsThread(c, s, t);
    assert QueueInv(c, t);
  }

  lemma PlaySendKeepsThread(c: Config, s: State, t: State)
    requires ThreadInv(c, s) && SendLeaves(s, t)
    requires t.task == s.task || (s.task.Waiting? && t.task.Waiting?)
    ensures ThreadInv(c, t)
  {
  }

  lemma TaskStepKeepsPhase(c: Config, a: Action, s: State, t: State)
    requires a.TaskStep? || a.SpuriousWakeup?
    requires ConfigOk(c) && ControlInv(c, s) && Enabled(a, s) && t == TaskApply(c, s)
    ensures PhaseInv(c, t)
  {
  }

  lemma TaskStepKeepsThread(c: Config, a: Action, s: State, t: State)
    requires a.TaskStep? || a.SpuriousWakeup?
    requires ConfigOk(c) && ControlInv(c, s) && Enabled(a, s) && t == TaskApply(c, s)
    ensures ThreadInv(c, t)
  {
  }

  lemma TaskStepKeepsQueue(c: Config, a: Action, s: State, t: State)
    requires a.TaskStep? || a.SpuriousWakeup?
    requires ConfigOk(c) && ControlInv(c, s) && Enabled(a, s) && t == TaskApply(c, s)
    ensures QueueInv(c, t)
  {
  }

  lemma PlayerStepKeepsPhase(c: Config, a: Action, s: State, t: State)
    requires a.PlayerStep?
    requires ConfigOk(c) && ControlInv(c, s) && Enabled(a, s) && t == PlayerApply(c, s)
    ensures PhaseInv(c, t)
  {
  }

  lemma PlayerStepKeepsThread(c: Config, a: Action, s: State, t: State)
    requires a.PlayerStep?
    requires ConfigOk(c) && ControlInv(c, s) && Enabled(a, s) && t == PlayerApply(c, s)
    ensures ThreadInv(c, t)
  {
  }

  lemma PlayerStepKeepsQueue(c: Config, a: Action, s: State, t: State)
    requires a.PlayerStep?
    requires ConfigOk(c) && ControlInv(c, s) && Enabled(a, s) && t == PlayerApply(c, s)
    ensures QueueInv(c, t)
  {
  }

  lemma StepKeepsControl(c: Config, a: Action, s: State, t: State)
    requires ConfigOk(c) && ControlInv(c, s) && Step(c, a, s, t)
    ensures ControlInv(c, t)
  {
    match a
    case PlayCheck(_) => PlayCheckKeeps(c, a, s, t);
    case PlaySend(_) => PlaySendKeeps(c, a, s, t);
    case TaskStep =>
      TaskStepKeepsPhase(c, a, s, t);
      TaskStepKeepsThread(c, a, s, t);
      TaskStepKeepsQueue(c, a, s, t);
    case SpuriousWakeup =>
      TaskStepKeepsPhase(c, a, s, t);
      TaskStepKeepsThread(c, a, s, t);
      TaskStepKeepsQueue(c, a, s, t);
    case PlayerStep =>
      PlayerStepKeepsPhase(c, a, s, t);
      PlayerStepKeepsThread(c, a, s, t);
      PlayerStepKeepsQueue(c, a, s, t);
    case Stutter =>
    case _ =>
      ControlStepKeepsPhase(c, a, s, t);
      ControlStepKeepsThread(c, a, s, t);
      ControlStepKeepsQueue(c, a, s, t);
  }

  lemma {:induction false} RunControl(c: Config, run: nat -> State, act: nat -> Action, i: nat)
    requires ConfigOk(c) && Execution(c, run, act)
    ensures ControlInv(c, run(i))
  {
    if i == 0 {
      InitialControl(c, run(0));
    } else {
      RunControl(c, run, act, i - 1);
      NextControl(c, run, act, i);
    }
  }

  lemma NextControl(c: Config, run: nat -> State, act: nat -> Action, i: nat)
    requires ConfigOk(c) && Execution(c, run, act) && i > 0 && ControlInv(c, run(i - 1))
    ensures ControlInv(c, run(i))
  {
    assert StepAt(c, run, act, i - 1);
    StepKeepsControl(c, act(i - 1), run(i - 1), run(i));
  }

  // ---- At most one late message ----

  /** The task takes a message from the queue. */
  predicate Takes(a: Action, s: State) {
    a.TaskStep? && s.task == AtGet && s.queue != []
  }

  /** How many messages the task takes from step i up to step j. */
  function TakenBetween(run: nat -> State, act: nat -> Action, i: nat, j: nat): nat
    decreases j
  {
    if j <= i then 0
    else TakenBetween(run, act, i, j - 1) + if Takes(act(j - 1), run(j - 1)) then 1 else 0
  }

  /** A call of Audio_start that is not refused. */
  predicate CreatesTask(a: Action, s: State) {
    a.StartCall? && a.created && s.phase == Inited
  }

  lemma LateTaskStep(c: Config, a: Action, s: State, t: State)
    requires ConfigOk(c) && PhaseInv(c, s) && Step(c, a, s, t)
    requires s.phase != Running && s.control != Starting && (a.TaskStep? || a.SpuriousWakeup?)
    ensures t.phase != Running && t.control != Starting
    ensures WantsMessage(t.task) ==> WantsMessage(s.task)
    ensures Takes(a, s) ==> WantsMessage(s.task) && !WantsMessage(t.task)
  {
  }

  lemma LateOtherStep(c: Config, a: Action, s: State, t: State)
    requires ConfigOk(c) && ThreadInv(c, s) && Step(c, a, s, t)
    requires s.phase != Running && s.control != Starting && !CreatesTask(a, s) && !a.TaskStep? && !a.SpuriousWakeup?
    ensures t.phase != Running && t.control != Starting
    ensures WantsMessage(t.task) ==> WantsMessage(s.task)
  {
  }

  lemma LateStep(c: Config, a: Action, s: State, t: State)
    requires ConfigOk(c) && ControlInv(c, s) && Step(c, a, s, t)
    requires s.phase != Running && s.control != Starting && !CreatesTask(a, s)
    ensures t.phase != Running && t.control != Starting
    ensures WantsMessage(t.task) ==> WantsMessage(s.task)
    ensures Takes(a, s) ==> WantsMessage(s.task) && !WantsMessage(t.task)
  {
    if a.TaskStep? || a.SpuriousWakeup? { LateTaskStep(c, a, s, t); } else { LateOtherStep(c, a, s, t); }
  }

  /** From the store of Ending in Audio_end until the component is started again, the task
      takes at most one more message, whatever the queue holds and however sends
      interleave. So a refused END message does no harm. */
  lemma {:induction false} AtMostOneLateMessage(c: Config, run: nat -> State, act: nat -> Action, i: nat, j: nat)
    requires ConfigOk(c) && Execution(c, run, act)
    requires act(i).EndCall? && run(i).phase == Running && i < j
    requires forall k | i < k < j :: !CreatesTask(act(k), run(k))
    ensures TakenBetween(run, act, i + 1, j) <= if WantsMessage(run(j).task) then 0 else 1
    ensures run(j).phase != Running && run(j).control != Starting
    decreases j
  {
    if j == i + 1 {
      RunControl(c, run, act, i);
      assert StepAt(c, run, act, i);
    } else {
      AtMostOneLateMessage(c, run, act, i, j - 1);
      LateNext(c, run, act, j - 1);
    }
  }

  /** LateStep at one point of a run. */
  lemma LateNext(c: Config, run: nat -> State, act: nat -> Action, k: nat)
    requires ConfigOk(c) && Execution(c, run, act)
    requires run(k).phase != Running && run(k).control != Starting && !CreatesTask(act(k), run(k))
    ensures run(k + 1).phase != Running && run(k + 1).control != Starting
    ensures WantsMessage(run(k + 1).task) ==> WantsMessage(run(k).task)
    ensures Takes(act(k), run(k)) ==> WantsMessage(run(k).task) && !WantsMessage(run(k + 1).task)
  {
    RunControl(c, run, act, k);
    assert StepAt(c, run, act, k);
    LateStep(c, act(k), run(k), run(k + 1));
  }

  /** The task has left its loop. */
  predicate LeftLoop(t: Task) {
    t.AtEndLock? || t.AtEnding? || t.AtStop? || t.AtJoin? || t.TaskDone?
  }

  lemma LeftLoopStep(c: Config, a: Action, s: State, t: State)
    requires ConfigOk(c) && ControlInv(c, s) && Step(c, a, s, t) && !CreatesTask(a, s)
    requires LeftLoop(s.task) || (s.task == Handling(EndMsg) && a.TaskStep?)
    ensures LeftLoop(t.task)
  {
  }

  lemma LeftLoopNext(c: Config, run: nat -> State, act: nat -> Action, k: nat)
    requires ConfigOk(c) && Execution(c, run, act) && !CreatesTask(act(k), run(k))
    requires LeftLoop(run(k).task) || (run(k).task == Handling(EndMsg) && act(k).TaskStep?)
    ensures LeftLoop(run(k + 1).task)
  {
    RunControl(c, run, act, k);
    assert StepAt(c, run, act, k);
    LeftLoopStep(c, act(k), run(k), run(k + 1));
  }

  /** The END message ends the task: the step that handles it leaves the loop, and the loop
      is not entered again before Audio_start creates another task. */
  lemma {:induction false} EndMessageEndsTheLoop(c: Config, run: nat -> State, act: nat -> Action, i: nat, j: nat)
    requires ConfigOk(c) && Execution(c, run, act) && i < j
    requires run(i).task == Handling(EndMsg) && act(i).TaskStep?
    requires forall k | i <= k < j :: !CreatesTask(act(k), run(k))
    ensures LeftLoop(run(j).task)
    decreases j
  {
    if j == i + 1 {
      LeftLoopNext(c, run, act, i);
    } else {
      EndMessageEndsTheLoop(c, run, act, i, j - 1);
      LeftLoopNext(c, run, act, j - 1);
    }
  }

  /** Why the first check is assumed to come after the store of Running: if it came before,
      the task would leave its loop at once, and the component would be left Running without
      it, or Ending although nobody called Audio_end, depending on which store comes last. */
  lemma EarlyCheckStrandsTheTask(c: Config, s: State)
    requires s.control == Starting && s.phase == Inited && s.task == AtCheck
    ensures var t := ControlApply(c, StartStore, TaskApply(c, TaskApply(c, s)));
            t.phase == Running && t.control == Free && t.task == AtStop
    ensures var u := TaskApply(c, ControlApply(c, StartStore, TaskApply(c, s)));
            u.phase == Ending && u.control == Free && u.task == AtStop
  {
  }
}
