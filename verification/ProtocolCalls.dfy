/** What the API calls do: one at a time in any state, and over whole runs, in which every
    call returns. */
module ProtocolCalls {
  import opened Lifecycle
  import opened Protocol
  import opened ProtocolControl
  import opened ProtocolShutdown
  import opened ProtocolSpeaker
  import Speaker

  // ---- One call ----

  function Woken(t: Task): Task {
    if t.Waiting? then Waiting(true) else t
  }

  /** The message goes last if there is room, and then wakes the task; a full queue refuses
      it. */
  function Sent(c: Config, queue: seq<Msg>, m: Msg): seq<Msg> {
    if |queue| < c.capacity then queue + [m] else queue
  }

  /** Audio_PlayTrack in any state, whoever else is calling: it is turned away unless the
      component runs, and otherwise sends its request or is refused by a full queue, and
      returns. */
  lemma PlayTrackOutcome(c: Config, s: State, track: nat)
    requires ConfigOk(c) && LockFree(s)
    ensures Enabled(PlayCheck(track), s)
    ensures s.phase != Running ==> Next(c, PlayCheck(track), s) == s
    ensures s.phase == Running ==>
              var s1 := Next(c, PlayCheck(track), s);
              && Enabled(PlaySend(track), s1)
              && var u := Next(c, PlaySend(track), s1);
                 var room := |s.queue| < c.capacity;
                 && u.callers == s.callers
                 && u.queue == Sent(c, s.queue, PlayMsg(track, |s.h.accepted|))
                 && u.task == (if room then Woken(s.task) else s.task)
                 && u.h.accepted == s.h.accepted + (if room then [Request(s.h.session, track)] else [])
                 && u == s.(queue := u.queue, task := u.task, h := s.h.(accepted := u.h.accepted))
  {
    if s.phase == Running {
      var s1 := Next(c, PlayCheck(track), s);
      assert s1.callers - multiset{track} == s.callers;
      assert s.h.accepted + [] == s.h.accepted;
    }
  }

  /** Audio_start succeeds exactly on an Inited component whose thread can be created; it
      leaves a Running one with a fresh task and touches nothing else. */
  lemma StartOutcome(c: Config, s: State, created: bool)
    requires ConfigOk(c) && s.control == Free
    ensures Enabled(StartCall(created), s)
    ensures s.phase != Inited || !created ==> Next(c, StartCall(created), s) == s
    ensures s.phase == Inited && created ==>
              var s1 := Next(c, StartCall(created), s);
              && s1.phase == Inited && s1.task == AtLock && Enabled(StartStore, s1)
              && Next(c, StartStore, s1) ==
                 s.(phase := Running, task := AtLock, player := NoPlayer, h := s.h.(session := s.h.session + 1))
  {
  }

  /** Audio_init succeeds exactly from Ended when everything it asks for is granted. */
  lemma InitCallOutcome(c: Config, s: State, env: InitEnv)
    requires ConfigOk(c) && ControlInv(c, s) && SpeakerInv(c, s) && s.control == Free
    ensures Enabled(InitCall(env), s)
    ensures var t := Next(c, InitCall(env), s);
            var pins := env.speaker;
            && (t.phase == Inited <==>
                  || s.phase == Inited
                  || (&& s.phase == Ended && env.mutexOk && env.condOk && pins.dirOpens && pins.exportOk
                      && (s.speaker.chip || pins.chipOpens)
                      && pins.line1Found && pins.line1Granted && pins.line2Found && pins.line2Granted))
            && (t.phase == Inited && s.phase == Ended ==> t.speaker.inited)
            && t == s.(phase := t.phase, speaker := t.speaker)
            && (s.phase != Ended ==> t == s)
  {
    Speaker.InitOutcome(s.speaker, env.speaker);
  }

  /** Audio_end does nothing to an Ended component, goes on to close one without threads, and
      sends END to a Running one, behind everything that is queued. */
  lemma EndCallOutcome(c: Config, s: State)
    requires ConfigOk(c) && s.control == Free
    ensures Enabled(EndCall, s)
    ensures s.phase == Ended ==> Next(c, EndCall, s) == s
    ensures s.phase == Inited || s.phase == Ending ==> Next(c, EndCall, s) == s.(control := Closing)
    ensures s.phase == Running ==> Next(c, EndCall, s) == s.(phase := Ending, control := Sending)
  {
  }

  lemma EndSendOutcome(c: Config, s: State)
    requires ConfigOk(c) && s.control == Sending && LockFree(s)
    ensures Enabled(EndSend, s)
    ensures var t := Next(c, EndSend, s);
            && t.queue == Sent(c, s.queue, EndMsg)
            && t.task == (if |s.queue| < c.capacity then Woken(s.task) else s.task)
            && t == s.(queue := t.queue, task := t.task, control := Joining)
  {
  }

  lemma EndJoinOutcome(c: Config, s: State)
    requires ConfigOk(c) && s.control == Joining
    ensures Enabled(EndJoin, s) <==> s.task == TaskDone
    ensures s.task == TaskDone ==> Next(c, EndJoin, s) == s.(control := Closing)
  {
  }

  /** The last part of Audio_end can meet every failure; it changes the component as
      CloseComponent says, lets go of the audio mutex, and leaves threads and mailbox alone. */
  lemma EndCloseOutcome(c: Config, s: State, env: CloseEnv)
    requires ConfigOk(c) && s.control == Closing
    ensures Enabled(EndClose(env), s) <==> s.callers == multiset{}
    ensures s.callers == multiset{} ==>
              var t := Next(c, EndClose(env), s);
              && Comp(t) == CloseComponent(Comp(s), env).0 && t.control == Free
              && t == s.(phase := t.phase, speaker := t.speaker, queue := t.queue, control := Free, h := t.h)
  {
  }

  /** A waiting task can always wake up without a signal, and with one if it was given.
      Either way it takes the message mutex again and looks at the queue before anything
      else. */
  lemma WakeupOutcome(c: Config, s: State)
    requires ConfigOk(c) && s.task.Waiting?
    ensures Enabled(SpuriousWakeup, s)
    ensures Enabled(TaskStep, s) <==> s.task == Waiting(true)
    ensures var t := Next(c, SpuriousWakeup, s);
            && t == s.(task := AtRelock) && Enabled(TaskStep, t)
            && Next(c, TaskStep, t) == s.(task := AtGet)
    ensures s.task == Waiting(true) ==> Next(c, TaskStep, s) == Next(c, SpuriousWakeup, s)
  {
  }

  // ---- No call is lost ----

  /** How many calls for a track found the component Running, up to step i. */
  function Passed(run: nat -> State, act: nat -> Action, track: nat, i: nat): nat {
    if i == 0 then 0
    else Passed(run, act, track, i - 1)
         + if act(i - 1) == PlayCheck(track) && run(i - 1).phase == Running then 1 else 0
  }

  /** How many of them a full queue refused. */
  function Refused(c: Config, run: nat -> State, act: nat -> Action, track: nat, i: nat): nat {
    if i == 0 then 0
    else Refused(c, run, act, track, i - 1)
         + if act(i - 1) == PlaySend(track) && |run(i - 1).queue| >= c.capacity then 1 else 0
  }

  /** How many requests for a track were accepted. */
  function Requested(accepted: seq<Request>, track: nat): nat {
    if accepted == [] then 0
    else Requested(accepted[..|accepted| - 1], track) + if accepted[|accepted| - 1].track == track then 1 else 0
  }

  lemma RequestedOneMore(accepted: seq<Request>, r: Request, track: nat)
    ensures Requested(accepted + [r], track) == Requested(accepted, track) + if r.track == track then 1 else 0
  {
    assert (accepted + [r])[..|accepted|] == accepted;
  }

  lemma SendCounts(c: Config, a: Action, s: State, t: State, track: nat)
    requires a.PlaySend? && Enabled(a, s) && t == CallerApply(c, a, s)
    ensures Requested(t.h.accepted, track) + t.callers[track]
            + (if a.track == track && |s.queue| >= c.capacity then 1 else 0)
            == Requested(s.h.accepted, track) + s.callers[track]
  {
    if |s.queue| < c.capacity { RequestedOneMore(s.h.accepted, Request(s.h.session, a.track), track); }
  }

  lemma OtherStepLeavesCallers(c: Config, a: Action, s: State, t: State)
    requires ConfigOk(c) && ControlInv(c, s) && Step(c, a, s, t) && !a.PlayCheck? && !a.PlaySend?
    ensures t.callers == s.callers && t.h.accepted == s.h.accepted
  {
  }

  lemma StepCounts(c: Config, a: Action, s: State, t: State, track: nat)
    requires ConfigOk(c) && ControlInv(c, s) && Step(c, a, s, t)
    ensures Requested(t.h.accepted, track) + t.callers[track]
            + (if a == PlaySend(track) && |s.queue| >= c.capacity then 1 else 0)
            == Requested(s.h.accepted, track) + s.callers[track]
            + (if a == PlayCheck(track) && s.phase == Running then 1 else 0)
  {
    if a.PlaySend? {
      SendCounts(c, a, s, t, track);
    } else if !a.PlayCheck? {
      OtherStepLeavesCallers(c, a, s, t);
    }
  }

  /** Every call of Audio_PlayTrack that found the component Running was accepted, was refused
      by a full queue, or is still on its way: in every run, at every moment, for every
      track, the numbers agree. */
  lemma {:induction false} CallsAreConserved(
    c: Config, run: nat -> State, act: nat -> Action, track: nat, i: nat)
    requires ConfigOk(c) && Execution(c, run, act)
    ensures Passed(run, act, track, i) ==
            Requested(run(i).h.accepted, track) + Refused(c, run, act, track, i) + run(i).callers[track]
  {
    if i == 0 {
    } else {
      CallsAreConserved(c, run, act, track, i - 1);
      NextCounts(c, run, act, track, i);
    }
  }

  lemma NextCounts(c: Config, run: nat -> State, act: nat -> Action, track: nat, i: nat)
    requires ConfigOk(c) && Execution(c, run, act) && i > 0
    ensures Requested(run(i).h.accepted, track) + run(i).callers[track]
            + (if act(i - 1) == PlaySend(track) && |run(i - 1).queue| >= c.capacity then 1 else 0)
            == Requested(run(i - 1).h.accepted, track) + run(i - 1).callers[track]
            + (if act(i - 1) == PlayCheck(track) && run(i - 1).phase == Running then 1 else 0)
  {
    RunControl(c, run, act, i - 1);
    assert StepAt(c, run, act, i - 1);
    StepCounts(c, act(i - 1), run(i - 1), run(i), track);
  }

  // ---- Every call returns ----

  lemma CallerStays(c: Config, a: Action, s: State, t: State, track: nat)
    requires ConfigOk(c) && ControlInv(c, s) && Step(c, a, s, t) && track in s.callers && a != PlaySend(track)
    ensures track in t.callers && s.control != Starting
  {
    if !a.PlayCheck? && !a.PlaySend? { OtherStepLeavesCallers(c, a, s, t); }
  }

  lemma CallerNext(c: Config, run: nat -> State, act: nat -> Action, track: nat, k: nat)
    requires ConfigOk(c) && Execution(c, run, act) && track in run(k).callers && act(k) != PlaySend(track)
    ensures track in run(k + 1).callers && !StartingAt(run, k)
  {
    RunControl(c, run, act, k);
    assert StepAt(c, run, act, k);
    CallerStays(c, act(k), run(k), run(k + 1), track);
  }

  lemma {:induction false} CallerWaits(
    c: Config, run: nat -> State, act: nat -> Action, track: nat, i: nat, j: nat)
    requires ConfigOk(c) && Execution(c, run, act) && track in run(i).callers && i <= j
    requires !TakenFrom(act, PlaySend(track), i)
    ensures track in run(j).callers && !StartingAt(run, j)
    decreases j
  {
    if i < j {
      CallerWaits(c, run, act, track, i, j - 1);
      CallerNext(c, run, act, track, j - 1);
    }
    CallerNext(c, run, act, track, j);
  }

  /** Whoever has passed the check of Audio_PlayTrack gets to send, so the call returns. */
  lemma EveryCallReturns(c: Config, run: nat -> State, act: nat -> Action, track: nat, i: nat) returns (j: nat)
    requires ConfigOk(c) && Execution(c, run, act) && Fair(run, act)
    requires StronglyFair(run, act, PlaySend(track)) && track in run(i).callers
    ensures i <= j && act(j) == PlaySend(track)
  {
    if !TakenFrom(act, PlaySend(track), i) {
      forall k | i <= k ensures track in run(k).callers && !StartingAt(run, k) {
        CallerWaits(c, run, act, track, i, k);
      }
      forall m: nat ensures EnabledFrom(run, PlaySend(track), m) {
        var n := if m < i then i else m;
        LockBecomesFree(c, run, act, n);
        var k: nat :| n <= k && FreeAt(run, k);
        assert EnabledAt(run, PlaySend(track), k);
      }
    }
    j :| i <= j && act(j) == PlaySend(track);
  }

  // ---- Audio_end returns ----

  predicate CanClose(s: State) {
    s.control == Closing && s.callers == multiset{}
  }

  predicate CloseServed(run: nat -> State, act: nat -> Action, j: nat) {
    act(j).EndClose? || !CanClose(run(j))
  }

  ghost predicate CloseServedFrom(run: nat -> State, act: nat -> Action, i: nat) {
    exists j: nat :: i <= j && CloseServed(run, act, j)
  }

  /** Weak fairness of the last part of Audio_end. */
  ghost predicate ClosesFairly(run: nat -> State, act: nat -> Action) {
    forall i: nat :: CloseServedFrom(run, act, i)
  }

  lemma ClosingStep(c: Config, a: Action, s: State, t: State)
    requires ConfigOk(c) && ControlInv(c, s) && Step(c, a, s, t) && s.control == Closing
    ensures if a.EndClose? then CanClose(s) && t.control == Free else t.control == Closing
    ensures t.callers <= s.callers
    ensures a.PlaySend? ==> |t.callers| < |s.callers|
  {
    if !a.PlayCheck? && !a.PlaySend? { OtherStepLeavesCallers(c, a, s, t); }
  }

  lemma ClosingNext(c: Config, run: nat -> State, act: nat -> Action, k: nat)
    requires ConfigOk(c) && Execution(c, run, act) && run(k).control == Closing
    ensures if act(k).EndClose? then CanClose(run(k)) && run(k + 1).control == Free
            else run(k + 1).control == Closing
    ensures run(k + 1).callers <= run(k).callers
    ensures act(k).PlaySend? ==> |run(k + 1).callers| < |run(k).callers|
  {
    RunControl(c, run, act, k);
    assert StepAt(c, run, act, k);
    ClosingStep(c, act(k), run(k), run(k + 1));
  }

  ghost predicate CanCloseBetween(run: nat -> State, i: nat, j: nat) {
    exists k: nat :: i <= k <= j && CanClose(run(k))
  }

  /** Until the last caller has left, Audio_end waits and callers only get fewer. */
  lemma {:induction false} ClosingLasts(c: Config, run: nat -> State, act: nat -> Action, i: nat, j: nat)
    requires ConfigOk(c) && Execution(c, run, act) && run(i).control == Closing && i <= j
    requires !CanCloseBetween(run, i, j)
    ensures run(j).control == Closing && |run(j).callers| <= |run(i).callers|
    decreases j
  {
    if i == j {
    } else {
      assert !CanCloseBetween(run, i, j - 1);
      ClosingLasts(c, run, act, i, j - 1);
      assert !CanClose(run(j - 1));
      ClosingNext(c, run, act, j - 1);
      FewerCallers(run(j).callers, run(j - 1).callers);
    }
  }

  lemma FewerCallers(a: multiset<nat>, b: multiset<nat>)
    requires a <= b
    ensures |a| <= |b|
  {
    assert b == a + (b - a);
  }

  lemma {:induction false} CallersLeave(c: Config, run: nat -> State, act: nat -> Action, i: nat) returns (j: nat)
    requires ConfigOk(c) && Execution(c, run, act) && Fair(run, act)
    requires forall track: nat :: StronglyFair(run, act, PlaySend(track))
    requires run(i).control == Closing
    ensures i <= j && CanClose(run(j))
    decreases |run(i).callers|
  {
    if CanClose(run(i)) {
      j := i;
    } else {
      var track :| track in run(i).callers;
      var n := EveryCallReturns(c, run, act, track, i);
      if CanCloseBetween(run, i, n) {
        j :| i <= j <= n && CanClose(run(j));
      } else {
        ClosingLasts(c, run, act, i, n);
        ClosingNext(c, run, act, n);
        j := CallersLeave(c, run, act, n + 1);
      }
    }
  }

  ghost predicate ClosedBetween(act: nat -> Action, i: nat, j: nat) {
    exists k: nat :: i <= k < j && act(k).EndClose?
  }

  lemma {:induction false} ReadyToCloseLasts(c: Config, run: nat -> State, act: nat -> Action, i: nat, j: nat)
    requires ConfigOk(c) && Execution(c, run, act) && CanClose(run(i)) && i <= j && !ClosedBetween(act, i, j)
    ensures CanClose(run(j))
    decreases j
  {
    if i == j {
    } else {
      assert !ClosedBetween(act, i, j - 1);
      ReadyToCloseLasts(c, run, act, i, j - 1);
      ClosingNext(c, run, act, j - 1);
      assert run(j).callers == multiset{};
    }
  }

  lemma ClosingEnds(c: Config, run: nat -> State, act: nat -> Action, i: nat) returns (j: nat)
    requires ConfigOk(c) && Execution(c, run, act) && ClosesFairly(run, act) && CanClose(run(i))
    ensures i < j && act(j - 1).EndClose? && run(j).control == Free
  {
    assert CloseServedFrom(run, act, i);
    var n: nat :| i <= n && CloseServed(run, act, n);
    if ClosedBetween(act, i, n) {
      n := FirstClose(act, i, n);
    }
    ReadyToCloseLasts(c, run, act, i, n);
    ClosingNext(c, run, act, n);
    j := n + 1;
  }

  lemma {:induction false} FirstClose(act: nat -> Action, i: nat, j: nat) returns (k: nat)
    requires ClosedBetween(act, i, j)
    ensures i <= k < j && act(k).EndClose? && !ClosedBetween(act, i, k)
    decreases j
  {
    var m: nat :| i <= m < j && act(m).EndClose?;
    if ClosedBetween(act, i, m) {
      k := FirstClose(act, i, m);
    } else {
      k := m;
    }
  }

  /** Audio_end always returns: once past its check, with fair threads, fair callers and fair
      steps of its own, it sends, joins, waits for the last caller, closes and lets go of
      the audio mutex. */
  lemma AudioEndReturns(c: Config, run: nat -> State, act: nat -> Action, i: nat)
    requires ConfigOk(c) && Execution(c, run, act) && Fair(run, act) && ClosesFairly(run, act)
    requires StronglyFair(run, act, EndSend) && StronglyFair(run, act, EndJoin)
    requires forall track: nat :: StronglyFair(run, act, PlaySend(track))
    requires run(i).control == Sending || run(i).control == Joining || run(i).control == Closing
    ensures exists j: nat :: i < j && act(j - 1).EndClose? && run(j).control == Free
  {
    var k := i;
    if run(k).control == Sending { k := SendingEnds(c, run, act, k); }
    if run(k).control == Joining { k := JoiningEnds(c, run, act, k); }
    var l := CallersLeave(c, run, act, k);
    var j := ClosingEnds(c, run, act, l);
  }
}
