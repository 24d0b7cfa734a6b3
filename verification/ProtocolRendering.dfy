/** The whole chain: what is heard while the threads interleave is the rendering of the
    requests that were started. */
module ProtocolRendering {
  import opened Music
  import opened Lifecycle
  import opened Protocol
  import opened ProtocolControl
  import opened ProtocolSpeaker
  import P = Player
  import Speaker

  /** The requests among the polls. */
  function Found(cat: Catalogue, polls: seq<nat>): seq<nat> {
    if polls == [] then []
    else
      var n := |polls| - 1;
      Found(cat, polls[..n]) + if polls[n] == cat.maxTracks then [] else [polls[n]]
  }

  /** The tracks started in one session. */
  function StartedIn(session: nat, started: seq<Start>): seq<nat> {
    if started == [] then []
    else
      var n := |started| - 1;
      StartedIn(session, started[..n]) + if started[n].session == session then [started[n].track] else []
  }

  /** The locals and the pitch in force are those of the polls so far. */
  ghost predicate FollowsPolls(c: Config, s: State)
    requires ConfigOk(c)
  {
    && s.locals == P.After(c.cat, P.Idle(c.cat), s.h.polls)
    && (s.speaker.inited ==> s.speaker.cache == P.HeldPitch(c.cat, s.h.polls))
  }

  predicate StartsFound(c: Config, s: State) {
    StartedIn(s.h.session, s.h.started) == if s.player == NoPlayer then [] else Found(c.cat, s.h.polls)
  }

  predicate StartsNumbered(s: State) {
    forall i | 0 <= i < |s.h.started| :: s.h.started[i].session <= s.h.session
  }

  ghost predicate RenderInv(c: Config, s: State)
    requires ConfigOk(c)
  {
    (PlayerReady(s) ==> FollowsPolls(c, s)) && StartsFound(c, s) && StartsNumbered(s)
  }

  lemma {:induction false} NothingStartedYet(session: nat, started: seq<Start>)
    requires forall i | 0 <= i < |started| :: started[i].session < session
    ensures StartedIn(session, started) == []
  {
    if started == [] {
    } else {
      NothingStartedYet(session, started[..|started| - 1]);
    }
  }

  /** One iteration of the player extends the rendering by one tick. */
  lemma IterationRenders(c: Config, s: State, t: State)
    requires ConfigOk(c) && ControlInv(c, s) && SpeakerInv(c, s) && RenderInv(c, s)
    requires s.player == AtPoll && t == Iterate(c, s)
    ensures RenderInv(c, t)
  {
    IterationMoves(c, s, t);
    MovesRender(c, s, t);
  }

  /** What an iteration changes, as far as the rendering is concerned. */
  lemma IterationMoves(c: Config, s: State, t: State)
    requires ConfigOk(c) && ControlInv(c, s) && s.player == AtPoll && t == Iterate(c, s)
    ensures Moves(c, s, t)
  {
  }

  ghost predicate Moves(c: Config, s: State, t: State)
    requires ConfigOk(c) && P.LocalsOk(c.cat, s.locals)
  {
    && t.player == AtHead && t.locals == P.Tick(c.cat, s.locals, s.mailbox.track).0
    && t.speaker == Speaker.PlayAll(c.q, s.speaker, P.Tick(c.cat, s.locals, s.mailbox.track).1)
    && t.h.polls == s.h.polls + [s.mailbox.track] && t.h.session == s.h.session
    && t.h.started == s.h.started + NewStarts(c, s)
  }

  lemma MovesRender(c: Config, s: State, t: State)
    requires ConfigOk(c) && ControlInv(c, s) && SpeakerInv(c, s) && RenderInv(c, s)
    requires s.player == AtPoll && Moves(c, s, t)
    ensures RenderInv(c, t)
  {
    IterationRendersPolls(c, s, t);
    IterationFindsRequests(c, s, t);
    IterationNumbersStarts(c, s, t);
  }

  lemma IterationNumbersStarts(c: Config, s: State, t: State)
    requires t.h.started == s.h.started + NewStarts(c, s) && t.h.session == s.h.session && StartsNumbered(s)
    ensures StartsNumbered(t)
  {
  }

  /** What is started when the mailbox is polled. */
  function NewStarts(c: Config, s: State): seq<Start> {
    if s.mailbox.track == c.cat.maxTracks then [] else [Start(s.h.session, s.mailbox.ticket, s.mailbox.track)]
  }

  lemma IterationRendersPolls(c: Config, s: State, t: State)
    requires ConfigOk(c) && ControlInv(c, s) && SpeakerInv(c, s) && s.player == AtPoll
    requires FollowsPolls(c, s) && Moves(c, s, t)
    ensures FollowsPolls(c, t)
  {
    P.RunExtends(c.cat, s.h.polls, s.mailbox.track);
    SingKeepsSync(c, s, P.Tick(c.cat, s.locals, s.mailbox.track).1);
  }

  lemma IterationFindsRequests(c: Config, s: State, t: State)
    requires s.player == AtPoll && t.player == AtHead && t.h.session == s.h.session
    requires t.h.polls == s.h.polls + [s.mailbox.track] && t.h.started == s.h.started + NewStarts(c, s)
    requires StartsFound(c, s)
    ensures StartsFound(c, t)
  {
    assert t.h.polls[..|s.h.polls|] == s.h.polls;
    if NewStarts(c, s) == [] {
      assert t.h.started == s.h.started;
    } else {
      assert t.h.started[..|s.h.started|] == s.h.started;
    }
  }

  lemma SpawnRenders(c: Config, s: State, t: State)
    requires ConfigOk(c) && ControlInv(c, s) && SpeakerInv(c, s) && RenderInv(c, s)
    requires s.task == AtSpawn && t == TaskApply(c, s)
    ensures RenderInv(c, t)
  {
  }

  lemma StartRenders(c: Config, s: State, t: State)
    requires ConfigOk(c) && ControlInv(c, s) && RenderInv(c, s)
    requires s.phase == Inited && t == ControlApply(c, StartCall(true), s)
    ensures RenderInv(c, t)
  {
    NothingStartedYet(t.h.session, t.h.started);
  }

  lemma RenderFrame(c: Config, a: Action, s: State, t: State)
    requires ConfigOk(c) && ControlInv(c, s) && Step(c, a, s, t)
    requires !a.PlayerStep? && (a.TaskStep? ==> s.task != AtSpawn) && !a.StartCall?
    ensures t.h.started == s.h.started && t.h.polls == s.h.polls && t.h.session == s.h.session
    ensures t.player == s.player && t.locals == s.locals
    ensures PlayerReady(s) ==> t.speaker == s.speaker
  {
  }

  /** The steps that neither start nor move a player leave the rendering alone. */
  lemma OtherStepKeepsRendering(c: Config, a: Action, s: State, t: State)
    requires ConfigOk(c) && ControlInv(c, s) && RenderInv(c, s) && Step(c, a, s, t)
    requires !a.PlayerStep? && (a.TaskStep? ==> s.task != AtSpawn) && !a.StartCall?
    ensures RenderInv(c, t)
  {
    RenderFrame(c, a, s, t);
  }

  lemma PlayerStepKeepsRendering(c: Config, s: State, t: State)
    requires ConfigOk(c) && ControlInv(c, s) && SpeakerInv(c, s) && RenderInv(c, s) && Step(c, PlayerStep, s, t)
    ensures RenderInv(c, t)
  {
    if s.player == AtPoll {
      IterationRenders(c, s, t);
    } else {
      LeavingTheLoopRenders(c, s, t);
    }
  }

  lemma LeavingTheLoopRenders(c: Config, s: State, t: State)
    requires ConfigOk(c) && PlayerReady(s) && RenderInv(c, s) && s.player != AtPoll && t == PlayerApply(c, s)
    ensures RenderInv(c, t)
  {
    assert t.h.started == s.h.started && t.h.polls == s.h.polls && t.h.session == s.h.session;
    assert t.locals == s.locals && (t.speaker == s.speaker || t.player == PlayerDone);
  }

  lemma StepKeepsRendering(c: Config, a: Action, s: State, t: State)
    requires ConfigOk(c) && ControlInv(c, s) && SpeakerInv(c, s) && RenderInv(c, s) && Step(c, a, s, t)
    ensures RenderInv(c, t)
  {
    if a.PlayerStep? {
      PlayerStepKeepsRendering(c, s, t);
    } else if a.TaskStep? && s.task == AtSpawn {
      SpawnRenders(c, s, t);
    } else if a.StartCall? {
      if s.phase == Inited && a.created { StartRenders(c, s, t); }
    } else {
      OtherStepKeepsRendering(c, a, s, t);
    }
  }

  lemma RunRendering(c: Config, run: nat -> State, act: nat -> Action, i: nat)
    requires ConfigOk(c) && Execution(c, run, act)
    ensures ControlInv(c, run(i)) && SpeakerInv(c, run(i)) && RenderInv(c, run(i))
  {
    RunSpeaker(c, run, act, i);
    RenderingHolds(c, run, act, i);
  }

  lemma {:induction false} RenderingHolds(c: Config, run: nat -> State, act: nat -> Action, i: nat)
    requires ConfigOk(c) && Execution(c, run, act)
    ensures RenderInv(c, run(i))
  {
    if i == 0 {
      assert run(0).h.started == [];
    } else {
      RenderingHolds(c, run, act, i - 1);
      NextRendering(c, run, act, i);
    }
  }

  lemma NextRendering(c: Config, run: nat -> State, act: nat -> Action, i: nat)
    requires ConfigOk(c) && Execution(c, run, act) && i > 0 && RenderInv(c, run(i - 1))
    ensures RenderInv(c, run(i))
  {
    RunSpeaker(c, run, act, i - 1);
    assert StepAt(c, run, act, i - 1);
    StepKeepsRendering(c, act(i - 1), run(i - 1), run(i));
  }

  /** In every state of every run in which the player is between iterations and the speaker
      is open, the hardware sounds the rendered pitch of what the player has polled; and
      the requests it polled are exactly those started in this session. */
  lemma HeardIsRendered(c: Config, run: nat -> State, act: nat -> Action, i: nat)
    requires ConfigOk(c) && Execution(c, run, act)
    requires run(i).player == AtHead || run(i).player == AtPoll || run(i).player == AtClear
    ensures run(i).speaker.inited ==>
              Speaker.Sounds(c.q, run(i).speaker.regs, P.HeldPitch(c.cat, run(i).h.polls))
    ensures Found(c.cat, run(i).h.polls) == StartedIn(run(i).h.session, run(i).h.started)
  {
    RunRendering(c, run, act, i);
  }

  /** The player invariant under every interleaving: each iteration reads inside the track
      tables, so no run is ever undefined. */
  lemma ReadsStayInRange(c: Config, run: nat -> State, act: nat -> Action, i: nat)
    requires ConfigOk(c) && Execution(c, run, act) && act(i).PlayerStep? && run(i).player == AtPoll
    ensures P.LocalsOk(c.cat, run(i).locals)
    ensures run(i + 1) == Iterate(c, run(i))
  {
    RunControl(c, run, act, i);
    assert StepAt(c, run, act, i);
  }
}
