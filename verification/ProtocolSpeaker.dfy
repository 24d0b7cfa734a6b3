/** The speaker under the protocol: the pitch cache never lies, whatever the threads and
    the API callers do, and a successful Audio_end leaves everything shut. */
module ProtocolSpeaker {
  import opened Common
  import opened Lifecycle
  import opened Protocol
  import opened ProtocolControl
  import P = Player
  import Speaker

  ghost predicate SpeakerInv(c: Config, s: State) {
    && Speaker.Synced(c.q, s.speaker)
    && Speaker.SameSound(s.speaker.regs, s.h.uncached)
    // the cache holds 0 whenever the speaker is closed or no player runs
    && (!s.speaker.inited || s.player == NoPlayer || s.player == PlayerDone ==> s.speaker.cache == 0)
    && (s.phase == Ended ==> !s.speaker.inited)
    && (s.phase != Ended && !s.speaker.inited ==> Speaker.PinsReleased(s.speaker))
  }

  lemma InitialSpeaker(c: Config, s: State)
    requires ConfigOk(c) && Initial(c, s)
    ensures SpeakerInv(c, s)
  {
  }

  /** Sending pitches keeps the cache truthful and both drivers sounding alike. */
  lemma SingKeepsSync(c: Config, s: State, calls: seq<uint16>)
    requires SpeakerInv(c, s)
    ensures var t := Sing(c, s, calls);
            && Speaker.Synced(c.q, t.speaker)
            && Speaker.SameSound(t.speaker.regs, t.h.uncached)
            && t.speaker.inited == s.speaker.inited
            && t.speaker.cache == (if s.speaker.inited then Speaker.LastPitch(s.speaker.cache, calls) else 0)
            && (t.speaker.chip, t.speaker.line1, t.speaker.line2) == (s.speaker.chip, s.speaker.line1, s.speaker.line2)
  {
    if s.speaker.inited {
      Speaker.CacheRefinesUncached(c.q, s.speaker, s.h.uncached, calls);
    } else {
      Speaker.ClosedSpeakerIgnoresCalls(c.q, s.speaker, calls);
    }
  }

  /** Only three kinds of step touch the speaker, and only two open or close it. */
  lemma SpeakerFrame(c: Config, a: Action, s: State, t: State)
    requires ConfigOk(c) && ControlInv(c, s) && Step(c, a, s, t)
    requires !a.InitCall? && !a.EndClose?
    ensures !a.PlayerStep? ==> t.speaker == s.speaker && t.h.uncached == s.h.uncached
    ensures a.PlayerStep? ==>
              t.phase == s.phase && (s.player != AtPoll && s.player != AtSilence ==> t.speaker == s.speaker)
  {
  }

  /** A player step neither opens nor closes it. */
  lemma PlayerStepKeepsOpen(c: Config, s: State, t: State)
    requires ConfigOk(c) && ControlInv(c, s) && SpeakerInv(c, s) && Step(c, PlayerStep, s, t)
    ensures t.speaker.inited == s.speaker.inited && t.phase == s.phase
  {
    match s.player
    case AtPoll => SingKeepsSync(c, s, P.Tick(c.cat, s.locals, s.mailbox.track).1);
    case AtSilence => SingKeepsSync(c, s, [0]);
    case _ =>
  }

  lemma PlayerStepKeepsSpeaker(c: Config, s: State, t: State)
    requires ConfigOk(c) && ControlInv(c, s) && SpeakerInv(c, s) && Step(c, PlayerStep, s, t)
    ensures SpeakerInv(c, t)
  {
    match s.player
    case AtPoll => SingKeepsSync(c, s, P.Tick(c.cat, s.locals, s.mailbox.track).1);
    case AtSilence => SingKeepsSync(c, s, [0]);
    case _ =>
  }

  lemma CloseKeepsSpeaker(c: Config, env: CloseEnv, s: State, t: State)
    requires ConfigOk(c) && ControlInv(c, s) && SpeakerInv(c, s) && Step(c, EndClose(env), s, t)
    ensures SpeakerInv(c, t)
  {
    if s.speaker.inited {
      Speaker.ClosingKeepsSyncIffSilent(c.q, s.speaker);
    }
  }

  lemma InitKeepsSpeaker(c: Config, env: InitEnv, s: State, t: State)
    requires ConfigOk(c) && ControlInv(c, s) && SpeakerInv(c, s) && Step(c, InitCall(env), s, t)
    ensures SpeakerInv(c, t)
  {
    Speaker.InitOutcome(s.speaker, env.speaker);
  }

  lemma OtherStepKeepsSpeaker(c: Config, a: Action, s: State, t: State)
    requires ConfigOk(c) && ControlInv(c, s) && SpeakerInv(c, s) && Step(c, a, s, t)
    requires !a.PlayerStep? && !a.EndClose? && !a.InitCall?
    ensures SpeakerInv(c, t)
  {
    SpeakerFrame(c, a, s, t);
    assert t.phase == Ended ==> s.phase == Ended;
    assert t.player == s.player || s.player == NoPlayer || s.player == PlayerDone;
  }

  lemma StepKeepsSpeaker(c: Config, a: Action, s: State, t: State)
    requires ConfigOk(c) && ControlInv(c, s) && SpeakerInv(c, s) && Step(c, a, s, t)
    ensures SpeakerInv(c, t)
  {
    match a
    case PlayerStep => PlayerStepKeepsSpeaker(c, s, t);
    case EndClose(env) => CloseKeepsSpeaker(c, env, s, t);
    case InitCall(env) => InitKeepsSpeaker(c, env, s, t);
    case _ => OtherStepKeepsSpeaker(c, a, s, t);
  }

  lemma RunSpeaker(c: Config, run: nat -> State, act: nat -> Action, i: nat)
    requires ConfigOk(c) && Execution(c, run, act)
    ensures ControlInv(c, run(i)) && SpeakerInv(c, run(i))
  {
    RunControl(c, run, act, i);
    SpeakerHolds(c, run, act, i);
  }

  lemma {:induction false} SpeakerHolds(c: Config, run: nat -> State, act: nat -> Action, i: nat)
    requires ConfigOk(c) && Execution(c, run, act)
    ensures SpeakerInv(c, run(i))
  {
    if i == 0 {
      InitialSpeaker(c, run(0));
    } else {
      SpeakerHolds(c, run, act, i - 1);
      NextSpeaker(c, run, act, i);
    }
  }

  lemma NextSpeaker(c: Config, run: nat -> State, act: nat -> Action, i: nat)
    requires ConfigOk(c) && Execution(c, run, act) && i > 0 && SpeakerInv(c, run(i - 1))
    ensures SpeakerInv(c, run(i))
  {
    RunControl(c, run, act, i - 1);
    assert StepAt(c, run, act, i - 1);
    StepKeepsSpeaker(c, act(i - 1), run(i - 1), run(i));
  }

  // ---- Theorems about every run ----

  /** Cache refinement: over every run of init, start, play and end, in any interleaving and
      with any failures, the registers sound as those of a driver without the cache, both
      after each iteration and after each single pitch sent inside one. */
  lemma CacheIsInvisible(c: Config, run: nat -> State, act: nat -> Action, i: nat)
    requires ConfigOk(c) && Execution(c, run, act)
    ensures Speaker.SameSound(run(i).speaker.regs, run(i).h.uncached)
    ensures run(i).player == AtPoll ==> P.LocalsOk(c.cat, run(i).locals)
    ensures run(i).player == AtPoll && run(i).speaker.inited ==>
              var calls := P.Tick(c.cat, run(i).locals, run(i).mailbox.track).1;
              forall n | 0 <= n <= |calls| ::
                Speaker.SameSound(Speaker.PlayAll(c.q, run(i).speaker, calls[..n]).regs,
                                  Speaker.UncachedPlayAll(c.q, run(i).h.uncached, calls[..n]))
  {
    RunSpeaker(c, run, act, i);
    var s := run(i);
    if s.player == AtPoll && s.speaker.inited {
      var calls := P.Tick(c.cat, s.locals, s.mailbox.track).1;
      forall n | 0 <= n <= |calls|
        ensures Speaker.SameSound(Speaker.PlayAll(c.q, s.speaker, calls[..n]).regs,
                                  Speaker.UncachedPlayAll(c.q, s.h.uncached, calls[..n]))
      {
        Speaker.CacheRefinesUncached(c.q, s.speaker, s.h.uncached, calls[..n]);
      }
    }
  }

  /** It rests on this: whenever Speaker_DeInit closes the speaker, the cache holds 0. */
  lemma SilentAtClose(c: Config, run: nat -> State, act: nat -> Action, i: nat)
    requires ConfigOk(c) && Execution(c, run, act)
    ensures run(i).speaker.inited && !run(i + 1).speaker.inited ==>
              act(i).EndClose? && run(i).speaker.cache == 0 && Speaker.Sounds(c.q, run(i).speaker.regs, 0)
  {
    RunSpeaker(c, run, act, i);
    var s := run(i);
    assert StepAt(c, run, act, i);
    match act(i)
    case PlayerStep => PlayerStepKeepsOpen(c, s, run(i + 1));
    case InitCall(env) => Speaker.InitOutcome(s.speaker, env.speaker);
    case EndClose(env) =>
    case _ => SpeakerFrame(c, act(i), s, run(i + 1));
  }

  /** Life cycle under failures: whatever fails, an ended component has an ended speaker,
      no threads, an empty mailbox and queue, and a silent output. */
  lemma EndedIsQuiet(c: Config, run: nat -> State, act: nat -> Action, i: nat)
    requires ConfigOk(c) && Execution(c, run, act) && run(i).phase == Ended
    ensures !run(i).speaker.inited && run(i).speaker.regs.duty == 0 && run(i).speaker.regs.enable == 0
    ensures Quiescent(c, run(i))
  {
    RunSpeaker(c, run, act, i);
  }

  /** Ordered teardown: the step in which Audio_end succeeds finds both threads finished and
      leaves the speaker closed, silent, its pins released, the mailbox and the queue
      empty, and both state machines ended. It succeeds exactly when no call fails. */
  lemma OrderedTeardown(c: Config, run: nat -> State, act: nat -> Action, i: nat, env: CloseEnv)
    requires ConfigOk(c) && Execution(c, run, act) && act(i) == EndClose(env)
    ensures ThreadsOff(run(i))
    ensures run(i).phase == Ending ==>
              run(i).task == TaskDone && run(i).player == PlayerDone && run(i).playerPhase == Ended
    ensures run(i + 1).phase == Ended <==> env == CloseEnv(true, true, true)
    ensures run(i + 1).phase == Ended ==>
              var t := run(i + 1);
              && !t.speaker.inited && Speaker.PinsReleased(t.speaker)
              && t.speaker.regs.duty == 0 && t.speaker.regs.enable == 0
              && Quiescent(c, t) && t.control == Free
              && (t.task, t.player, t.playerPhase) == (run(i).task, run(i).player, run(i).playerPhase)
  {
    RunSpeaker(c, run, act, i);
    RunSpeaker(c, run, act, i + 1);
    assert StepAt(c, run, act, i);
    CloseOutcome(Comp(run(i)), env);
  }

  /** A failed Audio_end can be repeated: from any state of any run in which it has left
      the component Ending, calling it again with nothing failing ends the component. */
  lemma FailedEndCanBeRetried(c: Config, run: nat -> State, act: nat -> Action, i: nat)
    requires ConfigOk(c) && Execution(c, run, act)
    requires run(i).control == Free && (run(i).phase == Ending || run(i).phase == Inited)
    ensures var s1 := ControlApply(c, EndCall, run(i));
            var s2 := ControlApply(c, EndClose(CloseEnv(true, true, true)), s1);
            && Step(c, EndCall, run(i), s1)
            && Step(c, EndClose(CloseEnv(true, true, true)), s1, s2)
            && s2.phase == Ended && !s2.speaker.inited && Quiescent(c, s2)
  {
    RunSpeaker(c, run, act, i);
    var s1 := ControlApply(c, EndCall, run(i));
    StepKeepsControl(c, EndCall, run(i), s1);
    StepKeepsSpeaker(c, EndCall, run(i), s1);
    var last := EndClose(CloseEnv(true, true, true));
    StepKeepsControl(c, last, s1, ControlApply(c, last, s1));
  }

  /** No component that is up has a closed speaker. */
  predicate Audible(s: State) {
    s.phase == Inited || s.phase == Running ==> s.speaker.inited
  }

  /** Not every run keeps to that. The one step that breaks it is an Audio_end before
      Audio_start whose destroy calls fail after the speaker was closed; Audio_start then
      accepts the component. */
  lemma MuteExactlyAfterFailedEarlyEnd(c: Config, run: nat -> State, act: nat -> Action, i: nat)
    requires ConfigOk(c) && Execution(c, run, act) && Audible(run(i))
    ensures !Audible(run(i + 1)) <==>
            && act(i).EndClose? && run(i).phase == Inited
            && act(i).closeEnv.speakerLockOk && !(act(i).closeEnv.mutexOk && act(i).closeEnv.condOk)
  {
    RunSpeaker(c, run, act, i);
    var s, t := run(i), run(i + 1);
    assert StepAt(c, run, act, i);
    match act(i)
    case PlayerStep => PlayerStepKeepsOpen(c, s, t);
    case InitCall(env) => Speaker.InitOutcome(s.speaker, env.speaker);
    case EndClose(env) => CloseBreaksAudible(c, env, s, t);
    case _ => OtherStepKeepsAudible(c, act(i), s, t);
  }

  lemma CloseBreaksAudible(c: Config, env: CloseEnv, s: State, t: State)
    requires ConfigOk(c) && ControlInv(c, s) && Step(c, EndClose(env), s, t) && Audible(s)
    ensures !Audible(t) <==> s.phase == Inited && env.speakerLockOk && !(env.mutexOk && env.condOk)
  {
  }

  lemma OtherStepKeepsAudible(c: Config, a: Action, s: State, t: State)
    requires ConfigOk(c) && ControlInv(c, s) && Step(c, a, s, t) && Audible(s)
    requires !a.PlayerStep? && !a.InitCall? && !a.EndClose?
    ensures Audible(t)
  {
    SpeakerFrame(c, a, s, t);
  }
}
