/** Requests get through: while the component runs, fair scheduling brings every accepted
    request to the player, or drops it for its reason. */
module ProtocolProgress {
  import opened Lifecycle
  import opened Protocol
  import opened ProtocolControl
  import opened ProtocolDelivery
  import opened ProtocolFates
  import opened ProtocolShutdown
  import P = Player

  /** The player has started the request, or it can no longer be started. */
  predicate Settled(h: History, x: nat) {
    x in StartedTickets(h.started) || x in h.dropped
  }

  /** Accepted, not settled, and the component runs. */
  predicate Pending(s: State, x: nat) {
    s.phase == Running && x < |s.h.accepted| && !Settled(s.h, x)
  }

  // ---- How far a request still has to go ----

  /** Its place among the requests in the queue; negative when it has left it. */
  function QueuePlace(s: State, x: nat): int {
    x - (|s.h.accepted| - |Tickets(s.queue)|)
  }

  /** Steps until the task takes the next message. */
  function StepsToGet(t: Task): nat {
    match t
    case AtLock => 3
    case AtSpawn => 2
    case AtCheck => 1
    case Waiting(_) => 2
    case AtRelock => 1
    case Handling(_) => 3
    case AtNextLock => 2
    case _ => 0
  }

  predicate InHand(s: State, x: nat) {
    s.task.Handling? && s.task.msg.PlayMsg? && s.task.msg.ticket == x
  }

  /** The task brings the request forward, until it is in the mailbox. */
  predicate TasksTurn(s: State, x: nat) {
    QueuePlace(s, x) >= 0 || InHand(s, x)
  }

  /** Steps of the thread whose turn it is until the request is settled. */
  function Distance(s: State, x: nat): nat {
    if QueuePlace(s, x) >= 0 then 4 + 5 * QueuePlace(s, x) + StepsToGet(s.task)
    else if InHand(s, x) then 3
    else if s.player == AtPoll then 1
    else 2
  }

  /** A pending request that is neither queued nor in hand is in the mailbox. */
  lemma WhereItIs(c: Config, s: State, x: nat)
    requires AccountInv(c, s) && FateInv(c, s) && Pending(s, x)
    ensures QueuePlace(s, x) >= 0 ==> s.queue != []
    ensures !TasksTurn(s, x) ==> !MailEmpty(c, s) && s.mailbox.ticket == x
  {
    var n, w, q := |s.h.accepted|, Window(c, s), Tickets(s.queue);
    LastIsUnderWay(c, s, x);
    assert w[x - (n - |w|)] == x;
  }

  /** Whoever has to move can. */
  lemma SomeoneIsReady(c: Config, s: State, x: nat)
    requires ConfigOk(c) && ControlInv(c, s) && AccountInv(c, s) && FateInv(c, s) && Pending(s, x)
    ensures if TasksTurn(s, x) then TaskReady(s) else PlayerReady(s)
  {
    WhereItIs(c, s, x);
  }

  // ---- One step ----

  lemma TicketsOfRunningQueue(queue: seq<Msg>)
    requires queue != [] && queue[0] != EndMsg
    ensures |Tickets(queue)| == 1 + |Tickets(queue[1..])| && Tickets(queue)[0] == queue[0].ticket
  {
  }

  lemma TaskStepApproaches(c: Config, a: Action, s: State, t: State, x: nat)
    requires ConfigOk(c) && ControlInv(c, s) && AccountInv(c, s) && FateInv(c, s) && Step(c, a, s, t)
    requires (a.TaskStep? || a.SpuriousWakeup?) && Pending(s, x) && Pending(t, x)
    ensures Distance(t, x) <= Distance(s, x)
    ensures TasksTurn(s, x) ==> Distance(t, x) < Distance(s, x)
  {
    WhereItIs(c, s, x);
    if s.task == AtGet && s.queue != [] {
      RunningTaskTakes(c, s);
      TakeApproaches(c, s, t, x);
    } else if TasksTurn(s, x) {
      TaskComesCloser(c, s, t);
    } else {
      TaskLeavesPlayer(c, s, t);
    }
  }

  lemma RunningTaskTakes(c: Config, s: State)
    requires ControlInv(c, s) && s.phase == Running && s.task == AtGet && s.queue != []
    ensures s.queue[0] != EndMsg
  {
  }

  lemma TaskComesCloser(c: Config, s: State, t: State)
    requires ConfigOk(c) && ControlInv(c, s) && s.phase == Running && t == TaskApply(c, s)
    requires s.task != AtGet
    ensures t.queue == s.queue && t.h.accepted == s.h.accepted
    ensures StepsToGet(t.task) < StepsToGet(s.task)
    ensures s.task.Handling? ==> t.task == AtNextLock
    ensures t.task.Handling? ==> s.task.Handling?
  {
  }

  lemma TaskLeavesPlayer(c: Config, s: State, t: State)
    requires ControlInv(c, s) && s.phase == Running && t == TaskApply(c, s) && (s.task == AtGet ==> s.queue == [])
    ensures t.queue == s.queue && t.h.accepted == s.h.accepted
    ensures t.player == s.player || s.player == NoPlayer
    ensures t.task.Handling? ==> t.task == s.task
  {
  }

  lemma TakeApproaches(c: Config, s: State, t: State, x: nat)
    requires s.task == AtGet && s.queue != [] && s.queue[0] != EndMsg && t.task == Handling(s.queue[0])
    requires t.queue == s.queue[1..] && t.h == s.h && t.player == s.player
    requires Last(|s.h.accepted|, Window(c, s)) && x < |s.h.accepted|
    ensures Distance(t, x) <= Distance(s, x)
    ensures TasksTurn(s, x) ==> Distance(t, x) < Distance(s, x)
  {
    TicketsOfRunningQueue(s.queue);
    QueueIsLast(c, s);
  }

  lemma QueueIsLast(c: Config, s: State)
    requires Last(|s.h.accepted|, Window(c, s))
    ensures Last(|s.h.accepted|, Tickets(s.queue))
  {
    LastDrop(|s.h.accepted|, MailTickets(c, s.mailbox) + HandTickets(s.task), Tickets(s.queue));
  }

  lemma SendKeepsDistance(c: Config, a: Action, s: State, t: State, x: nat)
    requires a.PlaySend? && Enabled(a, s) && t == CallerApply(c, a, s) && x < |s.h.accepted|
    ensures Distance(t, x) == Distance(s, x)
  {
    if |s.queue| < c.capacity {
      TicketsAppend(s.queue, PlayMsg(a.track, |s.h.accepted|));
    }
  }

  lemma PlayerStepApproaches(c: Config, s: State, t: State, x: nat)
    requires ConfigOk(c) && ControlInv(c, s) && AccountInv(c, s) && FateInv(c, s) && Step(c, PlayerStep, s, t)
    requires Pending(s, x) && Pending(t, x)
    ensures Distance(t, x) <= Distance(s, x)
    ensures !TasksTurn(s, x) ==> Distance(t, x) < Distance(s, x)
  {
    assert s.player == AtHead || s.player == AtPoll;
    assert t.queue == s.queue && t.task == s.task && t.h.accepted == s.h.accepted;
    if !TasksTurn(s, x) {
      WhereItIs(c, s, x);
      if s.player == AtPoll { PolledIsStarted(c, s, t); }
    }
  }

  lemma PolledIsStarted(c: Config, s: State, t: State)
    requires ConfigOk(c) && P.LocalsOk(c.cat, s.locals) && t == Iterate(c, s) && !MailEmpty(c, s)
    ensures s.mailbox.ticket in StartedTickets(t.h.started)
  {
    var e := Start(s.h.session, s.mailbox.ticket, s.mailbox.track);
    assert t.h.started == s.h.started + [e];
    assert StartedTickets(t.h.started) == StartedTickets(t.h.started[..|s.h.started|]) + [e.ticket];
  }

  lemma OtherStepKeepsDistance(c: Config, a: Action, s: State, t: State, x: nat)
    requires ConfigOk(c) && ControlInv(c, s) && Step(c, a, s, t)
    requires !a.TaskStep? && !a.SpuriousWakeup? && !a.PlayerStep? && !a.PlaySend?
    requires Pending(s, x) && Pending(t, x)
    ensures Distance(t, x) == Distance(s, x)
  {
  }

  /** While a request is pending no step takes it further away, and a step of the thread
      whose turn it is brings it closer. */
  lemma StepApproaches(c: Config, a: Action, s: State, t: State, x: nat)
    requires ConfigOk(c) && ControlInv(c, s) && AccountInv(c, s) && FateInv(c, s) && Step(c, a, s, t)
    requires Pending(s, x) && Pending(t, x)
    ensures Distance(t, x) <= Distance(s, x)
    ensures (if TasksTurn(s, x) then a.TaskStep? else a.PlayerStep?) ==> Distance(t, x) < Distance(s, x)
  {
    match a
    case TaskStep => TaskStepApproaches(c, a, s, t, x);
    case SpuriousWakeup => TaskStepApproaches(c, a, s, t, x);
    case PlayerStep => PlayerStepApproaches(c, s, t, x);
    case PlaySend(_) => SendKeepsDistance(c, a, s, t, x);
    case _ => OtherStepKeepsDistance(c, a, s, t, x);
  }

  // ---- Fair runs ----

  predicate PendingAt(run: nat -> State, x: nat, k: nat) {
    Pending(run(k), x)
  }

  ghost predicate PendingUpTo(run: nat -> State, x: nat, i: nat, j: nat) {
    forall k | i <= k <= j :: PendingAt(run, x, k)
  }

  lemma NextApproaches(c: Config, run: nat -> State, act: nat -> Action, x: nat, k: nat)
    requires ConfigOk(c) && Execution(c, run, act) && PendingAt(run, x, k)
    ensures if TasksTurn(run(k), x) then TaskReady(run(k)) else PlayerReady(run(k))
    ensures PendingAt(run, x, k + 1) ==>
              && Distance(run(k + 1), x) <= Distance(run(k), x)
              && ((if TasksTurn(run(k), x) then act(k).TaskStep? else act(k).PlayerStep?) ==>
                    Distance(run(k + 1), x) < Distance(run(k), x))
  {
    RunFate(c, run, act, k);
    SomeoneIsReady(c, run(k), x);
    assert StepAt(c, run, act, k);
    if Pending(run(k + 1), x) { StepApproaches(c, act(k), run(k), run(k + 1), x); }
  }

  lemma {:induction false} NeverFurther(c: Config, run: nat -> State, act: nat -> Action, x: nat, i: nat, j: nat)
    requires ConfigOk(c) && Execution(c, run, act) && i <= j && PendingUpTo(run, x, i, j)
    ensures Distance(run(j), x) <= Distance(run(i), x)
    decreases j
  {
    if i == j {
    } else {
      NeverFurther(c, run, act, x, i, j - 1);
      assert PendingAt(run, x, j - 1) && PendingAt(run, x, j);
      NextApproaches(c, run, act, x, j - 1);
    }
  }

  /** Fairness ends the waiting or brings the request closer. */
  lemma ComesCloser(c: Config, run: nat -> State, act: nat -> Action, x: nat, i: nat) returns (j: nat)
    requires ConfigOk(c) && Execution(c, run, act) && Fair(run, act) && PendingAt(run, x, i)
    ensures i <= j && (PendingAt(run, x, j) ==> Distance(run(j), x) < Distance(run(i), x))
  {
    if TasksTurn(run(i), x) {
      assert TaskServedFrom(run, act, i);
      j :| i <= j && TaskServed(run, act, j);
    } else {
      assert PlayerServedFrom(run, act, i);
      j :| i <= j && PlayerServed(run, act, j);
    }
    if PendingUpTo(run, x, i, j) {
      assert PendingAt(run, x, j);
      NeverFurther(c, run, act, x, i, j);
      NextApproaches(c, run, act, x, j);
      if Distance(run(j), x) == Distance(run(i), x) {
        SameTurn(run(i), run(j), x);
        j := j + 1;
      }
    } else {
      j :| i <= j && !PendingAt(run, x, j);
    }
  }

  lemma SameTurn(s: State, t: State, x: nat)
    requires Distance(s, x) == Distance(t, x)
    ensures TasksTurn(s, x) == TasksTurn(t, x)
  {
  }

  /** Delivery: in every fair run, each accepted request is, from any moment on, eventually
      started or dropped, unless Audio_end intervenes. */
  lemma {:induction false} EveryRequestSettles(
    c: Config, run: nat -> State, act: nat -> Action, i: nat, x: nat)
    requires ConfigOk(c) && Execution(c, run, act) && Fair(run, act) && x < |run(i).h.accepted|
    ensures exists j: nat :: i <= j && (Settled(run(j).h, x) || run(j).phase != Running)
    decreases Distance(run(i), x)
  {
    if !PendingAt(run, x, i) {
      assert Settled(run(i).h, x) || run(i).phase != Running;
    } else {
      var j := ComesCloser(c, run, act, x, i);
      RunExtends(c, run, act, i, j);
      if PendingAt(run, x, j) {
        EveryRequestSettles(c, run, act, j, x);
      } else {
        assert Settled(run(j).h, x) || run(j).phase != Running;
      }
    }
  }

  /** The last word is heard: in a fair run whose component goes on running, a request for
      a track that no further request follows is eventually started. */
  lemma LatestRequestStarts(c: Config, run: nat -> State, act: nat -> Action, i: nat, x: nat)
    requires ConfigOk(c) && Execution(c, run, act) && Fair(run, act)
    requires forall k: nat | i <= k :: run(k).phase == Running && |run(k).h.accepted| == x + 1
    requires run(i).h.accepted[x].session == run(i).h.session && run(i).h.accepted[x].track != c.cat.maxTracks
    ensures exists j: nat :: i <= j && x in StartedTickets(run(j).h.started)
  {
    EveryRequestSettles(c, run, act, i, x);
    var j: nat :| i <= j && (Settled(run(j).h, x) || run(j).phase != Running);
    RunFate(c, run, act, j);
    RunExtends(c, run, act, i, j);
    SameSessionWhileRunning(c, run, act, i, j);
    assert run(j).h.accepted[..x + 1][x] == run(i).h.accepted[x];
    LatestIsNotDropped(c, run(j), x);
  }

  lemma LatestIsNotDropped(c: Config, s: State, x: nat)
    requires DropsInv(c, s) && s.phase == Running && |s.h.accepted| == x + 1
    requires s.h.accepted[x].session == s.h.session && s.h.accepted[x].track != c.cat.maxTracks
    ensures x !in s.h.dropped
  {
  }

  lemma {:induction false} SameSessionWhileRunning(c: Config, run: nat -> State, act: nat -> Action, i: nat, j: nat)
    requires ConfigOk(c) && Execution(c, run, act) && i <= j
    requires forall k: nat | i <= k <= j :: run(k).phase == Running
    ensures run(j).h.session == run(i).h.session
    decreases j
  {
    if i == j {
    } else {
      SameSessionWhileRunning(c, run, act, i, j - 1);
      RunningKeepsSession(c, run, act, j - 1);
    }
  }

  lemma RunningKeepsSession(c: Config, run: nat -> State, act: nat -> Action, k: nat)
    requires ConfigOk(c) && Execution(c, run, act) && run(k).phase == Running
    ensures run(k + 1).h.session == run(k).h.session
  {
    RunControl(c, run, act, k);
    assert StepAt(c, run, act, k);
  }
}
