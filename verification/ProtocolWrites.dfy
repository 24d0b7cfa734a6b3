/** The PWM registers under the protocol: what every single write of a run leaves in them. */
module ProtocolWrites {
  import opened Common
  import opened Protocol
  import opened ProtocolControl
  import opened ProtocolSpeaker
  import opened ProtocolRendering
  import opened ProtocolShutdown
  import opened ProtocolWitnesses
  import Music
  import P = Player
  import PlayerRuns
  import Speaker

  /** The pitches that a player step sends to the speaker. */
  ghost function PlayerCalls(c: Config, s: State): seq<uint16>
    requires ConfigOk(c)
  {
    match s.player
    case AtPoll => if P.LocalsOk(c.cat, s.locals) then P.Tick(c.cat, s.locals, s.mailbox.track).1 else []
    case AtSilence => [0]
    case _ => []
  }

  /** The register contents during a step, one per write. */
  ghost function StepWrites(c: Config, a: Action, s: State): seq<Speaker.Regs>
    requires ConfigOk(c)
  {
    match a
    case PlayerStep => Speaker.WritesOfAll(c.q, s.speaker, PlayerCalls(c, s))
    case EndClose(env) => if env.speakerLockOk then Speaker.ClosingWrites(s.speaker) else []
    case _ => []
  }

  /** No write is missing: each step of each run leaves in the registers what its last write
      put there, and what was there before if it has none. */
  lemma StepWritesLand(c: Config, run: nat -> State, act: nat -> Action, i: nat)
    requires ConfigOk(c) && Execution(c, run, act)
    ensures run(i + 1).speaker.regs == Speaker.LastWrite(run(i).speaker.regs, StepWrites(c, act(i), run(i)))
  {
    RunSpeaker(c, run, act, i);
    assert StepAt(c, run, act, i);
    WritesOfStepLand(c, act(i), run(i), run(i + 1));
  }

  lemma WritesOfStepLand(c: Config, a: Action, s: State, t: State)
    requires ConfigOk(c) && ControlInv(c, s) && Step(c, a, s, t)
    ensures t.speaker.regs == Speaker.LastWrite(s.speaker.regs, StepWrites(c, a, s))
  {
    match a
    case PlayerStep => WritesOfPlayerLand(c, s, t);
    case InitCall(env) => Speaker.InitOutcome(s.speaker, env.speaker);
    case EndClose(env) =>
    case _ => SpeakerFrame(c, a, s, t);
  }

  lemma WritesOfPlayerLand(c: Config, s: State, t: State)
    requires ConfigOk(c) && ControlInv(c, s) && Step(c, PlayerStep, s, t)
    ensures t.speaker.regs == Speaker.LastWrite(s.speaker.regs, StepWrites(c, PlayerStep, s))
  {
    Speaker.LastOfAllWrites(c.q, s.speaker, PlayerCalls(c, s));
  }

  ghost predicate SafeWritesAt(c: Config, run: nat -> State, act: nat -> Action, i: nat)
    requires ConfigOk(c)
  {
    Speaker.AllSafe(StepWrites(c, act(i), run(i)))
  }

  /** What the current player polled so far was safe, if anyone could hear it. */
  ghost predicate SafePolls(c: Config, s: State)
    requires ConfigOk(c)
  {
    PlayerReady(s) && s.speaker.inited ==> PlayerRuns.SafePreemptions(c.q, c.cat, s.h.polls)
  }

  /** An iteration writes safely exactly when the preemption in it, if any, is safe. */
  lemma IterationWritesSafeIff(c: Config, s: State, t: State)
    requires ConfigOk(c) && P.LocalsOk(c.cat, s.locals) && FollowsPolls(c, s) && Moves(c, s, t)
    requires s.player == AtPoll && Speaker.Synced(c.q, s.speaker) && SafePolls(c, s)
    ensures Speaker.AllSafe(StepWrites(c, PlayerStep, s)) <==> SafePolls(c, t)
  {
    var calls := P.Tick(c.cat, s.locals, s.mailbox.track).1;
    assert PlayerCalls(c, s) == calls;
    Speaker.PlayAllKeepsOpen(c.q, s.speaker, calls);
    if s.speaker.inited {
      AudibleWritesSafeIff(c, s, t);
    } else {
      Speaker.ClosedSpeakerIgnoresCalls(c.q, s.speaker, calls);
    }
  }

  lemma AudibleWritesSafeIff(c: Config, s: State, t: State)
    requires ConfigOk(c) && P.LocalsOk(c.cat, s.locals) && FollowsPolls(c, s)
    requires t.h.polls == s.h.polls + [s.mailbox.track]
    requires s.speaker.inited && Speaker.Synced(c.q, s.speaker)
    requires PlayerRuns.SafePreemptions(c.q, c.cat, s.h.polls)
    ensures Speaker.AllSafe(Speaker.WritesOfAll(c.q, s.speaker, P.Tick(c.cat, s.locals, s.mailbox.track).1))
            <==> PlayerRuns.SafePreemptions(c.q, c.cat, t.h.polls)
  {
    PlayerRuns.PollWritesSafeIff(c.q, c.cat, s.speaker, s.h.polls, s.mailbox.track);
  }

  lemma OtherPlayerStepIsSafe(c: Config, s: State, t: State)
    requires ConfigOk(c) && ControlInv(c, s) && SpeakerInv(c, s) && SafePolls(c, s)
    requires s.player != AtPoll && Step(c, PlayerStep, s, t)
    ensures Speaker.AllSafe(StepWrites(c, PlayerStep, s)) && SafePolls(c, t)
  {
    if s.player == AtSilence {
      if s.speaker.inited {
        Speaker.WritesSafeIff(c.q, s.speaker, [0]);
      } else {
        Speaker.ClosedSpeakerIgnoresCalls(c.q, s.speaker, [0]);
      }
    }
  }

  /** A player begins with no polls. */
  lemma NewPlayerIsSafe(c: Config, a: Action, s: State, t: State)
    requires ConfigOk(c) && SafePolls(c, s)
    requires (a.StartCall? || (a.TaskStep? && s.task == AtSpawn)) && Step(c, a, s, t)
    ensures SafePolls(c, t)
  {
    assert t.player == NoPlayer || t.h.polls == [] || t == s;
  }

  /** Closing silences a speaker that no player uses. */
  lemma CloseIsSafe(c: Config, a: Action, s: State, t: State)
    requires ConfigOk(c) && ControlInv(c, s) && a.EndClose? && Enabled(a, s) && t == ControlApply(c, a, s)
    ensures Speaker.AllSafe(StepWrites(c, a, s)) && SafePolls(c, t)
  {
    ClosingWritesAreSafe(s.speaker);
    assert !PlayerReady(t);
  }

  lemma ClosingWritesAreSafe(s: Speaker.Speaker)
    ensures Speaker.AllSafe(Speaker.ClosingWrites(s)) && Speaker.AllSafe([])
  {
  }

  lemma OtherStepIsSafe(c: Config, a: Action, s: State, t: State)
    requires ConfigOk(c) && ControlInv(c, s) && SpeakerInv(c, s) && SafePolls(c, s)
    requires !a.PlayerStep? && Step(c, a, s, t)
    ensures Speaker.AllSafe(StepWrites(c, a, s)) && SafePolls(c, t)
  {
    if a.StartCall? || (a.TaskStep? && s.task == AtSpawn) {
      NewPlayerIsSafe(c, a, s, t);
    } else if a.EndClose? {
      CloseIsSafe(c, a, s, t);
    } else {
      RenderFrame(c, a, s, t);
    }
  }

  lemma NextWritesSafeIff(c: Config, run: nat -> State, act: nat -> Action, i: nat)
    requires ConfigOk(c) && Execution(c, run, act) && SafePolls(c, run(i))
    ensures SafeWritesAt(c, run, act, i) <==> SafePolls(c, run(i + 1))
  {
    RunRendering(c, run, act, i);
    assert StepAt(c, run, act, i);
    if !act(i).PlayerStep? {
      OtherStepIsSafe(c, act(i), run(i), run(i + 1));
    } else if run(i).player == AtPoll {
      IterationMoves(c, run(i), run(i + 1));
      IterationWritesSafeIff(c, run(i), run(i + 1));
    } else {
      OtherPlayerStepIsSafe(c, run(i), run(i + 1));
    }
  }

  /** In every interleaving: the duty time stays inside the period at every single register
      write, closing included, if and only if every player whose speaker is open is
      preempted safely. */
  lemma EveryWriteSafeIff(c: Config, run: nat -> State, act: nat -> Action, n: nat)
    requires ConfigOk(c) && Execution(c, run, act)
    ensures (forall i | 0 <= i < n :: SafeWritesAt(c, run, act, i)) <==>
            (forall i | 0 <= i <= n :: SafePolls(c, run(i)))
  {
    var writes, polls := (i: nat) => SafeWritesAt(c, run, act, i), (i: nat) => SafePolls(c, run(i));
    assert polls(0);
    forall i | 0 <= i < n && polls(i)
      ensures writes(i) <==> polls(i + 1)
    {
      NextWritesSafeIff(c, run, act, i);
    }
    Together(writes, polls, n);
    assert forall i | 0 <= i < n :: writes(i) == SafeWritesAt(c, run, act, i);
    assert forall i | 0 <= i <= n :: polls(i) == SafePolls(c, run(i));
  }

  /** Two conditions that hold or fail together step by step do so over a whole run. */
  lemma {:induction false} Together(a: nat -> bool, b: nat -> bool, n: nat)
    requires b(0) && forall i | 0 <= i < n && b(i) :: a(i) <==> b(i + 1)
    ensures (forall i | 0 <= i < n :: a(i)) <==> (forall i | 0 <= i <= n :: b(i))
  {
    if n == 0 {
    } else {
      Together(a, b, n - 1);
      assert b(n - 1) ==> (a(n - 1) <==> b(n - 1 + 1));
    }
  }

  // ---- A run that writes unsafely ----

  /** The player polls once. */
  lemma PlayerPolls(c: Config, s0: State, before: seq<Action>, s: State) returns (plan: seq<Action>, t: State)
    requires ConfigOk(c) && Leads(c, s0, before, s) && Serving(s) && Sounding(c, s)
    ensures Leads(c, s0, plan, t) && Serving(t) && Sounding(c, t)
    ensures t.h.polls == s.h.polls + [s.mailbox.track]
  {
    LeadsOn(c, s0, before, s, PlayerStep);
    var s1 := s.(player := AtPoll);
    assert Next(c, PlayerStep, s) == s1;
    LeadsOn(c, s0, before + [PlayerStep], s1, PlayerStep);
    IterationSounds(c, s1);
    t := Iterate(c, s1);
    plan := before + [PlayerStep] + [PlayerStep];
  }

  lemma IterationSounds(c: Config, s: State)
    requires ConfigOk(c) && Serving(s) && s.player == AtPoll && Sounding(c, s.(player := AtHead))
    ensures var t := Iterate(c, s);
            && Next(c, PlayerStep, s) == t
            && Serving(t) && Sounding(c, t) && t.h.polls == s.h.polls + [s.mailbox.track]
  {
    P.RunExtends(c.cat, s.h.polls, s.mailbox.track);
    Speaker.PlayAllKeepsOpen(c.q, s.speaker, P.Tick(c.cat, s.locals, s.mailbox.track).1);
  }

  /** Two requests are played, the second preempting the first. */
  lemma BothArePolled(c: Config, s0: State, first: nat, second: nat) returns (plan: seq<Action>, s: State)
    requires ConfigOk(c) && Initial(c, s0)
    ensures Leads(c, s0, plan, s) && Sounding(c, s) && s.h.polls == [first, second]
  {
    plan, s := UpIsServing(c, s0);
    plan, s := RequestIsDelivered(c, s0, plan, s, first);
    plan, s := PlayerPolls(c, s0, plan, s);
    assert s.h.polls == [first];
    plan, s := RequestIsDelivered(c, s0, plan, s, second);
    plan, s := PlayerPolls(c, s0, plan, s);
  }

  lemma UnsafePollsMeanUnsafeWrite(c: Config, s: State)
    requires ConfigOk(c) && FairlyReachable(c, s) && !SafePolls(c, s)
    ensures exists run: nat -> State, act: nat -> Action, i: nat ::
              Execution(c, run, act) && Fair(run, act) && !SafeWritesAt(c, run, act, i)
  {
    var run: nat -> State, act: nat -> Action, n: nat :| Execution(c, run, act) && Fair(run, act) && run(n) == s;
    EveryWriteSafeIff(c, run, act, n);
    var i :| 0 <= i < n && !SafeWritesAt(c, run, act, i);
  }

  /** Two shipped tracks, requested one after the other, make the player write a period
      below the duty time in force, for every capacity and every rounding. */
  lemma UnsafeWriteIsReached(c: Config, s0: State)
    requires c.cat == Music.SHIPPED && ConfigOk(c) && Initial(c, s0)
    ensures exists run: nat -> State, act: nat -> Action, i: nat ::
              Execution(c, run, act) && Fair(run, act) && !SafeWritesAt(c, run, act, i)
  {
    var plan, s := BothArePolled(c, s0, 5, 9);
    PlayerRuns.ShippedPreemptionIsUnsafe(c.q);
    PlanReaches(c, s0, plan, s);
    UnsafePollsMeanUnsafeWrite(c, s);
  }
}
