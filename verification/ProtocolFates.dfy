/** How requests are lost: to the very next request, or together with everything after them. */
module ProtocolFates {
  import opened Lifecycle
  import opened Protocol
  import opened ProtocolControl
  import opened ProtocolDelivery
  import P = Player

  // ---- What is under way are the last requests accepted ----

  /** Tickets in the mailbox, in the task's hand and in the queue, in this order. */
  function Window(c: Config, s: State): seq<nat> {
    MailTickets(c, s.mailbox) + HandTickets(s.task) + Tickets(s.queue)
  }

  /** w holds the last of n tickets. */
  predicate Last(n: nat, w: seq<nat>) {
    |w| <= n && forall i | 0 <= i < |w| :: w[i] == n - |w| + i
  }

  lemma LastDrop(n: nat, a: seq<nat>, b: seq<nat>)
    requires Last(n, a + b)
    ensures Last(n, b)
  {
    assert forall i | 0 <= i < |b| :: b[i] == (a + b)[|a| + i];
  }

  lemma LastAppend(n: nat, w: seq<nat>)
    requires Last(n, w)
    ensures Last(n + 1, w + [n])
  {
  }

  /** Every later ticket is in the queue as well. */
  lemma LastContains(n: nat, w: seq<nat>, x: nat, u: nat)
    requires Last(n, w) && x in w && x < u < n
    ensures u in w
  {
    assert w[u - (n - |w|)] == u;
  }

  // ---- The invariant ----

  predicate Quiet(p: PlayerPc) {
    p == AtSilence || p == PlayerDone
  }

  predicate IsCutOff(h: History, x: nat) {
    x in h.dropped && h.dropped[x] == CutOff
  }

  /** A request is only cut off with its player, and the later ones of its session are cut
      off too, or will be because they are stuck in the queue. */
  ghost predicate CutFate(s: State, x: nat)
    requires x < |s.h.accepted|
  {
    && (s.h.accepted[x].session == s.h.session ==> Quiet(s.player))
    && (forall u | x < u < |s.h.accepted| && s.h.accepted[u].session == s.h.accepted[x].session ::
          IsCutOff(s.h, u) || (s.h.accepted[x].session == s.h.session && u in Tickets(s.queue)))
  }

  ghost predicate CutInv(s: State) {
    forall x: nat | IsCutOff(s.h, x) :: x < |s.h.accepted| && CutFate(s, x)
  }

  predicate OverwriteInv(h: History) {
    forall x | x in h.dropped && h.dropped[x].Overwritten? :: h.dropped[x].later == x + 1
  }

  ghost predicate FateInv(c: Config, s: State) {
    Last(|s.h.accepted|, Window(c, s)) && OverwriteInv(s.h) && CutInv(s)
  }

  lemma InitialFate(c: Config, s: State)
    requires ConfigOk(c) && Initial(c, s)
    ensures FateInv(c, s)
  {
  }

  // ---- What keeps the fate of a request that was cut off ----

  ghost predicate KeepsCuts(s: State, t: State) {
    && t.h.session == s.h.session
    && |s.h.accepted| <= |t.h.accepted| && t.h.accepted[..|s.h.accepted|] == s.h.accepted
    && (forall u | |s.h.accepted| <= u < |t.h.accepted| ::
          t.h.accepted[u].session == s.h.session && u in Tickets(t.queue))
    && (forall x: nat | IsCutOff(s.h, x) :: IsCutOff(t.h, x))
    && (Quiet(s.player) ==>
          && Quiet(t.player)
          && forall u | u in Tickets(s.queue) :: u in Tickets(t.queue) || IsCutOff(t.h, u))
  }

  lemma CutsStay(s: State, t: State, x: nat)
    requires KeepsCuts(s, t) && x < |s.h.accepted| && CutFate(s, x)
    ensures CutFate(t, x)
  {
    assert t.h.accepted[x] == t.h.accepted[..|s.h.accepted|][x];
    forall u | x < u < |t.h.accepted| && t.h.accepted[u].session == t.h.accepted[x].session
      ensures IsCutOff(t.h, u) || (t.h.accepted[x].session == t.h.session && u in Tickets(t.queue))
    {
      if u < |s.h.accepted| { assert t.h.accepted[u] == t.h.accepted[..|s.h.accepted|][u]; }
    }
  }

  /** When nothing is cut off in a step, this is all there is to show. */
  lemma CutsKept(s: State, t: State)
    requires CutInv(s) && KeepsCuts(s, t)
    requires forall x: nat | IsCutOff(t.h, x) :: IsCutOff(s.h, x)
    ensures CutInv(t)
  {
    forall x: nat | IsCutOff(t.h, x)
      ensures x < |t.h.accepted| && CutFate(t, x)
    {
      assert IsCutOff(s.h, x);
      CutsStay(s, t, x);
    }
  }

  // ---- The steps ----

  /** Requests stay where they are, apart from a message moving from the queue to the hand. */
  lemma SameHistoryKeeps(c: Config, s: State, t: State)
    requires FateInv(c, s) && SameRequests(s, t) && Window(c, t) == Window(c, s)
    requires Quiet(s.player) ==> Quiet(t.player) && Tickets(t.queue) == Tickets(s.queue)
    ensures FateInv(c, t)
  {
    CutsKept(s, t);
  }

  lemma SendKeepsFate(c: Config, track: nat, s: State, t: State)
    requires FateInv(c, s) && Accepts(track, s, t) && t.player == s.player
    ensures FateInv(c, t)
  {
    var n := |s.h.accepted|;
    TicketsAppend(s.queue, PlayMsg(track, n));
    assert HandTickets(t.task) == HandTickets(s.task);
    assert Window(c, t) == Window(c, s) + [n];
    LastAppend(n, Window(c, s));
    CutsKept(s, t);
  }

  lemma EndSendKeepsFate(c: Config, s: State, t: State)
    requires FateInv(c, s) && s.control == Sending && t == ControlApply(c, EndSend, s)
    ensures FateInv(c, t)
  {
    TicketsAppend(s.queue, EndMsg);
    assert Tickets(t.queue) == Tickets(s.queue) && HandTickets(t.task) == HandTickets(s.task);
    SameHistoryKeeps(c, s, t);
  }

  lemma TakeKeepsFate(c: Config, s: State, t: State)
    requires ConfigOk(c) && ControlInv(c, s) && FateInv(c, s)
    requires s.task == AtGet && s.queue != [] && t == TaskApply(c, s)
    ensures FateInv(c, t)
  {
    TakeMovesHead(s.queue, s.task, t.task);
    SameWindow(MailTickets(c, s.mailbox), HandTickets(s.task), Tickets(s.queue),
               HandTickets(t.task), Tickets(t.queue));
    SameHistoryKeeps(c, s, t);
  }

  lemma SameWindow(m: seq<nat>, a: seq<nat>, b: seq<nat>, d: seq<nat>, e: seq<nat>)
    requires a + b == d + e
    ensures m + a + b == m + d + e
  {
    assert m + a + b == m + (a + b);
    assert m + d + e == m + (d + e);
  }

  lemma TakeMovesHead(queue: seq<Msg>, before: Task, after: Task)
    requires queue != [] && before == AtGet && after == Handling(queue[0])
    ensures HandTickets(before) + Tickets(queue) == HandTickets(after) + Tickets(queue[1..])
  {
  }

  /** The request that overwrites one in the mailbox is the next one. */
  lemma DeliverKeepsFate(c: Config, s: State, t: State)
    requires ConfigOk(c) && ControlInv(c, s) && DeliveryInv(c, s) && FateInv(c, s)
    requires s.task.Handling? && s.task.msg.PlayMsg?
    requires t == Deliver(c, s, s.task.msg.track, s.task.msg.ticket)
    ensures FateInv(c, t)
  {
    DeliverDrops(c, s, t);
    DeliverKeepsWindow(c, s, t);
    CutsKept(s, t);
  }

  lemma DeliverKeepsWindow(c: Config, s: State, t: State)
    requires s.task.Handling? && s.task.msg.PlayMsg? && t.task == AtNextLock && t.queue == s.queue
    requires t.mailbox == Mail(s.task.msg.track, s.task.msg.ticket) && t.h.accepted == s.h.accepted
    requires Last(|s.h.accepted|, Window(c, s))
    ensures Last(|t.h.accepted|, Window(c, t))
  {
    var n, m, h, q := |s.h.accepted|, MailTickets(c, s.mailbox), [s.task.msg.ticket], Tickets(s.queue);
    assert Window(c, s) == m + (h + q) == (m + h) + q;
    LastDrop(n, m, h + q);
    LastDrop(n, m + h, q);
    assert Window(c, t) == MailTickets(c, t.mailbox) + q;
  }

  /** What a delivery drops had not been dropped before. */
  lemma DeliverDrops(c: Config, s: State, t: State)
    requires ConfigOk(c) && ControlInv(c, s) && AccountInv(c, s) && FateInv(c, s)
    requires s.task.Handling? && s.task.msg.PlayMsg?
    requires t == Deliver(c, s, s.task.msg.track, s.task.msg.ticket)
    ensures OverwriteInv(t.h) && KeepsCuts(s, t)
    ensures forall x: nat | IsCutOff(t.h, x) :: IsCutOff(s.h, x)
  {
    if !MailEmpty(c, s) {
      DisplacedIsEarlier(c, s);
      DisplacedIsPrevious(c, s);
    }
    HandIsFirst(c, s);
  }

  lemma DisplacedIsPrevious(c: Config, s: State)
    requires Last(|s.h.accepted|, Window(c, s))
    requires s.task.Handling? && s.task.msg.PlayMsg? && !MailEmpty(c, s)
    ensures s.task.msg.ticket == s.mailbox.ticket + 1
  {
    assert Window(c, s)[0] == s.mailbox.ticket && Window(c, s)[1] == s.task.msg.ticket;
  }

  lemma PollKeepsFate(c: Config, s: State, t: State)
    requires ConfigOk(c) && P.LocalsOk(c.cat, s.locals) && FateInv(c, s)
    requires s.player == AtPoll && t == Iterate(c, s)
    ensures FateInv(c, t)
  {
    var m, rest := MailTickets(c, s.mailbox), HandTickets(s.task) + Tickets(s.queue);
    assert Window(c, s) == m + rest && Window(c, t) == rest;
    LastDrop(|s.h.accepted|, m, rest);
    CutsKept(s, t);
  }

  /** The mailbox is cut off when nothing is in the task's hand: everything accepted after
      it is still in the queue. */
  lemma ClearKeepsFate(c: Config, s: State, t: State)
    requires ConfigOk(c) && ControlInv(c, s) && DeliveryInv(c, s) && FateInv(c, s)
    requires s.player == AtClear && t == PlayerApply(c, s)
    ensures FateInv(c, t)
  {
    ClearCutsOff(c, s, t);
    EmptyHandWindow(c, s);
    EmptyHandWindow(c, t);
    ShutdownCutsTheRest(c, s, t, MailTickets(c, s.mailbox), Tickets(s.queue));
  }

  lemma EmptyHandWindow(c: Config, s: State)
    requires HandTickets(s.task) == []
    ensures Window(c, s) == MailTickets(c, s.mailbox) + Tickets(s.queue)
    ensures MailEmpty(c, s) ==> Window(c, s) == Tickets(s.queue)
  {
  }

  lemma ClearCutsOff(c: Config, s: State, t: State)
    requires ConfigOk(c) && ControlInv(c, s) && DeliveryInv(c, s)
    requires s.player == AtClear && t == PlayerApply(c, s)
    ensures SameRequestsOffered(s, t) && Quiet(t.player)
    ensures HandTickets(s.task) == [] && HandTickets(t.task) == [] && t.queue == s.queue && MailEmpty(c, t)
    ensures t.h.dropped == DropAll(s.h.dropped, MailTickets(c, s.mailbox))
    ensures !MailEmpty(c, s) ==> s.h.accepted[s.mailbox.ticket].session == s.h.session
  {
    assert MailEmpty(c, s) ==> DropAll(s.h.dropped, MailTickets(c, s.mailbox)) == s.h.dropped;
  }

  predicate SameRequestsOffered(s: State, t: State) {
    t.h.accepted == s.h.accepted && t.h.session == s.h.session
  }

  /** Shutting down drops the front of the window; the rest is in the queue, or dropped too. */
  lemma ShutdownCutsTheRest(c: Config, s: State, t: State, front: seq<nat>, rest: seq<nat>)
    requires FateInv(c, s) && Window(c, s) == front + rest && Window(c, t) == rest == Tickets(t.queue)
    requires SameRequestsOffered(s, t) && t.h.dropped == DropAll(s.h.dropped, front)
    requires front != [] || Quiet(s.player) ==> Quiet(t.player)
    requires forall x | x in Tickets(s.queue) :: x in front || x in rest
    requires forall x | x in front :: x < |s.h.accepted| && s.h.accepted[x].session == s.h.session
    ensures FateInv(c, t)
  {
    LastDrop(|s.h.accepted|, front, rest);
    ShutdownKeepsCuts(s, t, front, rest);
    forall x: nat | IsCutOff(t.h, x)
      ensures x < |t.h.accepted| && CutFate(t, x)
    {
      if x in front {
        NewCutFate(c, s, t, front, rest, x);
      } else {
        assert IsCutOff(s.h, x);
        CutsStay(s, t, x);
      }
    }
  }

  lemma ShutdownKeepsCuts(s: State, t: State, front: seq<nat>, rest: seq<nat>)
    requires SameRequestsOffered(s, t) && t.h.dropped == DropAll(s.h.dropped, front) && rest == Tickets(t.queue)
    requires Quiet(s.player) ==> Quiet(t.player)
    requires forall x | x in Tickets(s.queue) :: x in front || x in rest
    ensures KeepsCuts(s, t)
  {
  }

  lemma NewCutFate(c: Config, s: State, t: State, front: seq<nat>, rest: seq<nat>, x: nat)
    requires Last(|s.h.accepted|, front + rest) && rest == Tickets(t.queue) && x in front
    requires SameRequestsOffered(s, t) && t.h.dropped == DropAll(s.h.dropped, front) && Quiet(t.player)
    requires x < |s.h.accepted| && s.h.accepted[x].session == s.h.session
    ensures CutFate(t, x)
  {
    forall u | x < u < |t.h.accepted|
      ensures u in front || u in rest
    {
      LastContains(|s.h.accepted|, front + rest, x, u);
    }
  }

  /** Closing cuts off all that is left. */
  lemma CloseKeepsFate(c: Config, env: CloseEnv, s: State, t: State)
    requires ConfigOk(c) && ControlInv(c, s) && DeliveryInv(c, s) && FateInv(c, s)
    requires Step(c, EndClose(env), s, t)
    ensures FateInv(c, t)
  {
    CloseCutsOff(c, env, s, t);
    var q := Tickets(s.queue);
    forall x | x in q ensures x < |s.h.accepted| && s.h.accepted[x].session == s.h.session {
      QueuedInSession(c, s, s.queue, x);
    }
    EmptyHandWindow(c, s);
    EmptyHandWindow(c, t);
    assert q + [] == q;
    ShutdownCutsTheRest(c, s, t, q, []);
  }

  lemma {:induction false} QueuedInSession(c: Config, s: State, queue: seq<Msg>, x: nat)
    requires forall i | 0 <= i < |queue| && queue[i].PlayMsg? ::
               IsRequest(s, queue[i].ticket, s.h.session, queue[i].track)
    requires x in Tickets(queue)
    ensures x < |s.h.accepted| && s.h.accepted[x].session == s.h.session
  {
    if queue[0].PlayMsg? && queue[0].ticket == x {
    } else {
      QueuedInSession(c, s, queue[1..], x);
    }
  }

  lemma StartKeepsFate(c: Config, s: State, t: State)
    requires ConfigOk(c) && ControlInv(c, s) && DeliveryInv(c, s) && FateInv(c, s)
    requires s.phase == Inited && s.control == Free && t == ControlApply(c, StartCall(true), s)
    ensures FateInv(c, t)
  {
    assert s.queue == [] && Window(c, t) == [];
    forall x: nat | IsCutOff(t.h, x)
      ensures x < |t.h.accepted| && CutFate(t, x)
    {
      assert IsCutOff(s.h, x) && CutFate(s, x);
    }
  }

  lemma OtherStepStaysQuiet(c: Config, a: Action, s: State, t: State)
    requires ConfigOk(c) && ControlInv(c, s) && Step(c, a, s, t)
    requires !a.StartCall? && !a.EndClose?
    ensures Quiet(s.player) ==> Quiet(t.player)
  {
  }

  lemma OtherStepKeepsFate(c: Config, a: Action, s: State, t: State)
    requires ConfigOk(c) && ControlInv(c, s) && FateInv(c, s) && Step(c, a, s, t)
    requires !a.PlaySend? && !a.EndSend? && !a.EndClose? && !a.StartCall? && !a.PlayerStep?
    requires a.TaskStep? ==> (s.task == AtGet ==> s.queue == []) && (s.task.Handling? ==> s.task.msg == EndMsg)
    ensures FateInv(c, t)
  {
    OtherStepFrame(c, a, s, t);
    OtherStepStaysQuiet(c, a, s, t);
    SameHistoryKeeps(c, s, t);
  }

  lemma SendStepKeepsFate(c: Config, track: nat, s: State, t: State)
    requires FateInv(c, s) && t == CallerApply(c, PlaySend(track), s)
    ensures FateInv(c, t)
  {
    if |s.queue| < c.capacity {
      SendKeepsFate(c, track, s, t);
    } else {
      SameHistoryKeeps(c, s, t);
    }
  }

  lemma PlayerStepKeepsFate(c: Config, s: State, t: State)
    requires ConfigOk(c) && ControlInv(c, s) && DeliveryInv(c, s) && FateInv(c, s) && Step(c, PlayerStep, s, t)
    ensures FateInv(c, t)
  {
    if s.player == AtPoll {
      PollKeepsFate(c, s, t);
    } else if s.player == AtClear {
      ClearKeepsFate(c, s, t);
    } else {
      SameHistoryKeeps(c, s, t);
    }
  }

  lemma StepKeepsFate(c: Config, a: Action, s: State, t: State)
    requires ConfigOk(c) && ControlInv(c, s) && DeliveryInv(c, s) && FateInv(c, s) && Step(c, a, s, t)
    ensures FateInv(c, t)
  {
    match a
    case PlaySend(track) => SendStepKeepsFate(c, track, s, t);
    case EndSend => EndSendKeepsFate(c, s, t);
    case EndClose(env) => CloseKeepsFate(c, env, s, t);
    case StartCall(created) => if s.phase == Inited && created { StartKeepsFate(c, s, t); }
    case PlayerStep => PlayerStepKeepsFate(c, s, t);
    case TaskStep =>
      if s.task == AtGet && s.queue != [] { TakeKeepsFate(c, s, t); }
      else if s.task.Handling? && s.task.msg.PlayMsg? { DeliverKeepsFate(c, s, t); }
      else { OtherStepKeepsFate(c, a, s, t); }
    case _ => OtherStepKeepsFate(c, a, s, t);
  }

  lemma RunFate(c: Config, run: nat -> State, act: nat -> Action, i: nat)
    requires ConfigOk(c) && Execution(c, run, act)
    ensures ControlInv(c, run(i)) && DeliveryInv(c, run(i)) && FateInv(c, run(i))
  {
    RunDelivery(c, run, act, i);
    FateHolds(c, run, act, i);
  }

  lemma {:induction false} FateHolds(c: Config, run: nat -> State, act: nat -> Action, i: nat)
    requires ConfigOk(c) && Execution(c, run, act)
    ensures FateInv(c, run(i))
  {
    if i == 0 {
      InitialFate(c, run(0));
    } else {
      FateHolds(c, run, act, i - 1);
      NextFate(c, run, act, i);
    }
  }

  lemma NextFate(c: Config, run: nat -> State, act: nat -> Action, i: nat)
    requires ConfigOk(c) && Execution(c, run, act) && i > 0 && FateInv(c, run(i - 1))
    ensures FateInv(c, run(i))
  {
    RunDelivery(c, run, act, i - 1);
    assert StepAt(c, run, act, i - 1);
    StepKeepsFate(c, act(i - 1), run(i - 1), run(i));
  }

  // ---- Theorems about every run ----

  /** Nothing accepted is lost without a reason: once Audio_end has succeeded, a request
      was started, or overwritten in the mailbox by the very next request, of the same
      session, or asked for the sentinel id, or was cut off by the shutdown together with
      every later request of its session; and never two of these. A request for the sentinel
      id is never started and never overwritten: it is void on delivery, unless the shutdown
      comes first. */
  lemma EveryRequestAccountedFor(c: Config, run: nat -> State, act: nat -> Action, i: nat, t: nat)
    requires ConfigOk(c) && Execution(c, run, act) && run(i).phase == Ended && t < |run(i).h.accepted|
    ensures var h := run(i).h;
            && (t in StartedTickets(h.started) <==> t !in h.dropped)
            && (t in h.dropped ==>
                  match h.dropped[t]
                  case Overwritten(u) =>
                    u == t + 1 < |h.accepted| && h.accepted[u].session == h.accepted[t].session
                  case Sentinel => h.accepted[t].track == c.cat.maxTracks
                  case CutOff =>
                    forall u | t < u < |h.accepted| && h.accepted[u].session == h.accepted[t].session :: IsCutOff(h, u))
            && (h.accepted[t].track == c.cat.maxTracks ==> t in h.dropped && !h.dropped[t].Overwritten?)
  {
    RunFate(c, run, act, i);
    var s := run(i);
    assert Pipeline(c, s) == StartedTickets(s.h.started);
    if t in s.h.dropped {
      assert DropInv(c, s, t, s.h.dropped[t]);
      if IsCutOff(s.h, t) { assert CutFate(s, t); }
    } else {
      StartedWasRequested(c, s, t);
    }
  }

  /** In every state, what is on its way to the player are the last requests accepted, in
      order: none of them can be dropped before an earlier one has been dealt with. */
  lemma LastAreUnderWay(c: Config, run: nat -> State, act: nat -> Action, i: nat, x: nat)
    requires ConfigOk(c) && Execution(c, run, act) && x < |run(i).h.accepted|
    ensures x in Window(c, run(i)) <==> |run(i).h.accepted| - |Window(c, run(i))| <= x
    ensures x in Window(c, run(i)) <==> x !in StartedTickets(run(i).h.started) && x !in run(i).h.dropped
  {
    RunFate(c, run, act, i);
    LastIsUnderWay(c, run(i), x);
  }

  lemma LastIsUnderWay(c: Config, s: State, x: nat)
    requires AccountInv(c, s) && Last(|s.h.accepted|, Window(c, s)) && x < |s.h.accepted|
    ensures x in Window(c, s) <==> |s.h.accepted| - |Window(c, s)| <= x
    ensures x in Window(c, s) <==> x !in StartedTickets(s.h.started) && x !in s.h.dropped
  {
    var n, a, w := |s.h.accepted|, StartedTickets(s.h.started), Window(c, s);
    if n - |w| <= x { assert w[x - (n - |w|)] == x; }
    PipelineIsStartedAndWindow(c, s);
    IncreasingApart(a, w);
  }

  lemma IncreasingApart(a: seq<nat>, b: seq<nat>)
    requires Increasing(a + b)
    ensures forall j, k | 0 <= j < |a| && 0 <= k < |b| :: a[j] != b[k]
  {
    forall j, k | 0 <= j < |a| && 0 <= k < |b|
      ensures a[j] != b[k]
    {
      assert (a + b)[j] == a[j] && (a + b)[|a| + k] == b[k];
    }
  }

  lemma PipelineIsStartedAndWindow(c: Config, s: State)
    ensures Pipeline(c, s) == StartedTickets(s.h.started) + Window(c, s)
  {
  }
}
