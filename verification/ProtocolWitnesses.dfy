/** Runs that exist: fair ones, and ones that reach the cases in which a property fails. */
module ProtocolWitnesses {
  import opened Lifecycle
  import opened Protocol
  import opened ProtocolControl
  import opened ProtocolShutdown
  import opened ProtocolSpeaker
  import P = Player
  import Speaker

  // ---- Planned runs ----

  /** Follows a plan and then lets task and player take turns for ever. */
  function RoundRobin(plan: seq<Action>): (nat, State) -> Action {
    (i: nat, s: State) =>
      if i < |plan| then plan[i] else if i % 2 == 0 then TaskStep else PlayerStep
  }

  ghost function PlannedRun(c: Config, s0: State, plan: seq<Action>): nat -> State
    requires ConfigOk(c)
  {
    ScheduledRun(c, s0, RoundRobin(plan))
  }

  ghost function PlannedActions(c: Config, s0: State, plan: seq<Action>): nat -> Action
    requires ConfigOk(c)
  {
    ScheduledActions(c, s0, RoundRobin(plan))
  }

  /** Every planned run is a run. */
  lemma PlannedRunIsARun(c: Config, s0: State, plan: seq<Action>)
    requires ConfigOk(c) && Initial(c, s0)
    ensures Execution(c, PlannedRun(c, s0, plan), PlannedActions(c, s0, plan))
  {
    EverySchedulerHasARun(c, s0, RoundRobin(plan));
  }

  /** And a fair one. */
  lemma PlannedRunIsFair(c: Config, s0: State, plan: seq<Action>)
    requires ConfigOk(c)
    ensures Fair(PlannedRun(c, s0, plan), PlannedActions(c, s0, plan))
  {
    var run, act := PlannedRun(c, s0, plan), PlannedActions(c, s0, plan);
    forall j: nat | |plan| <= j
      ensures if j % 2 == 0 then TaskServed(run, act, j) else PlayerServed(run, act, j)
    {
      TakingTurns(c, s0, plan, j);
    }
    TurnsAreFair(run, act, |plan|);
  }

  lemma TurnsAreFair(run: nat -> State, act: nat -> Action, n: nat)
    requires forall j: nat | n <= j :: if j % 2 == 0 then TaskServed(run, act, j) else PlayerServed(run, act, j)
    ensures Fair(run, act)
  {
    forall i: nat ensures TaskServedFrom(run, act, i) && PlayerServedFrom(run, act, i) {
      var j := 2 * (n + i);
      assert TaskServed(run, act, j) && PlayerServed(run, act, j + 1);
    }
  }

  lemma TakingTurns(c: Config, s0: State, plan: seq<Action>, j: nat)
    requires ConfigOk(c) && |plan| <= j
    ensures var run, act := PlannedRun(c, s0, plan), PlannedActions(c, s0, plan);
            if j % 2 == 0 then TaskServed(run, act, j) else PlayerServed(run, act, j)
  {
    TurnIsTaken(plan, j, Scheduled(c, s0, RoundRobin(plan), j));
  }

  lemma TurnIsTaken(plan: seq<Action>, j: nat, s: State)
    requires |plan| <= j
    ensures var a := Allowed(RoundRobin(plan), j, s);
            if j % 2 == 0 then a.TaskStep? || !TaskReady(s) else a.PlayerStep? || !PlayerReady(s)
  {
    assert RoundRobin(plan)(j, s) == if j % 2 == 0 then TaskStep else PlayerStep;
  }

  /** The states a plan leads through when each of its steps can be taken. */
  ghost predicate Leads(c: Config, s: State, plan: seq<Action>, t: State)
    requires ConfigOk(c)
    decreases plan
  {
    if plan == [] then t == s
    else Enabled(plan[0], s) && Leads(c, Next(c, plan[0], s), plan[1..], t)
  }

  lemma {:induction false} LeadsAppend(c: Config, s: State, a: seq<Action>, t: State, b: seq<Action>, u: State)
    requires ConfigOk(c) && Leads(c, s, a, t) && Leads(c, t, b, u)
    ensures Leads(c, s, a + b, u)
    decreases a
  {
    if a == [] {
      assert a + b == b;
    } else {
      assert (a + b)[1..] == a[1..] + b;
      LeadsAppend(c, Next(c, a[0], s), a[1..], t, b, u);
    }
  }

  lemma {:induction false} PlanIsFollowed(c: Config, s0: State, plan: seq<Action>, k: nat, t: State)
    requires ConfigOk(c) && k <= |plan| && Leads(c, PlannedRun(c, s0, plan)(k), plan[k..], t)
    ensures PlannedRun(c, s0, plan)(|plan|) == t
    decreases |plan| - k
  {
    if k == |plan| {
    } else {
      var s := PlannedRun(c, s0, plan)(k);
      assert plan[k..][0] == plan[k] && plan[k..][1..] == plan[k + 1..];
      assert PlannedRun(c, s0, plan)(k + 1) == Next(c, plan[k], s);
      PlanIsFollowed(c, s0, plan, k + 1, t);
    }
  }

  /** A state that some fair run reaches. */
  ghost predicate FairlyReachable(c: Config, t: State)
    requires ConfigOk(c)
  {
    exists run: nat -> State, act: nat -> Action, i: nat ::
      Execution(c, run, act) && Fair(run, act) && run(i) == t
  }

  lemma PlanReaches(c: Config, s0: State, plan: seq<Action>, t: State)
    requires ConfigOk(c) && Initial(c, s0) && Leads(c, s0, plan, t)
    ensures FairlyReachable(c, t)
  {
    assert plan[0..] == plan;
    PlannedRunIsARun(c, s0, plan);
    PlannedRunIsFair(c, s0, plan);
    PlanIsFollowed(c, s0, plan, 0, t);
    assert PlannedRun(c, s0, plan)(|plan|) == t;
  }

  /** One more step of a plan. */
  lemma LeadsOn(c: Config, s: State, plan: seq<Action>, t: State, a: Action)
    requires ConfigOk(c) && Leads(c, s, plan, t) && Enabled(a, t)
    ensures Leads(c, s, plan + [a], Next(c, a, t))
  {
    assert [a][1..] == [];
    LeadsAppend(c, s, plan, t, [a], Next(c, a, t));
  }

  // ---- Particular runs ----

  const GRANTED := InitEnv(true, true, Speaker.Environment(true, true, true, true, true, true, true))

  /** Audio_init and Audio_start with nothing failing. */
  ghost function Up(c: Config, s0: State): State
    requires ConfigOk(c) && Initial(c, s0)
  {
    var s1 := Next(c, InitCall(GRANTED), s0);
    var s2 := Next(c, StartCall(true), s1);
    Next(c, StartStore, s2)
  }

  const UP: seq<Action> := [InitCall(GRANTED), StartCall(true), StartStore]

  lemma UpIsRunning(c: Config, s0: State)
    requires ConfigOk(c) && Initial(c, s0)
    ensures var s := Up(c, s0);
            && Leads(c, s0, UP, s)
            && s.phase == Running && s.control == Free && s.task == AtLock && s.player == NoPlayer
            && s.queue == [] && s.callers == multiset{} && MailEmpty(c, s)
            && s.h.session == 1 && s.h.accepted == [] && s.h.started == [] && s.h.dropped == map[]
            && s.speaker.inited
  {
    var s1 := Next(c, InitCall(GRANTED), s0);
    assert s1.phase == Inited && s1.control == Free;
    LeadsOn(c, s0, [], s0, InitCall(GRANTED));
    LeadsOn(c, s0, [InitCall(GRANTED)], s1, StartCall(true));
    LeadsOn(c, s0, [InitCall(GRANTED), StartCall(true)], Next(c, StartCall(true), s1), StartStore);
    assert [] + [InitCall(GRANTED)] == [InitCall(GRANTED)];
    assert [InitCall(GRANTED)] + [StartCall(true)] == [InitCall(GRANTED), StartCall(true)];
    assert [InitCall(GRANTED), StartCall(true)] + [StartStore] == UP;
  }

  /** Requests pile up before the task has looked. */
  ghost predicate Piled(s: State, k: nat) {
    && s.phase == Running && s.control == Free && s.task == AtLock && s.callers == multiset{}
    && |s.queue| == k && EndMsg !in s.queue
  }

  lemma OneMorePiled(c: Config, s0: State, before: seq<Action>, s: State, k: nat, track: nat)
    returns (plan: seq<Action>, t: State)
    requires ConfigOk(c) && Leads(c, s0, before, s) && Piled(s, k) && k < c.capacity
    ensures Leads(c, s0, plan, t) && Piled(t, k + 1)
  {
    LeadsOn(c, s0, before, s, PlayCheck(track));
    var s1 := Next(c, PlayCheck(track), s);
    assert s1.callers == multiset{track};
    LeadsOn(c, s0, before + [PlayCheck(track)], s1, PlaySend(track));
    t := Next(c, PlaySend(track), s1);
    plan := before + [PlayCheck(track)] + [PlaySend(track)];
    assert t.callers == multiset{};
  }

  lemma {:induction false} RequestsPileUp(c: Config, s0: State, k: nat, track: nat)
    returns (plan: seq<Action>, t: State)
    requires ConfigOk(c) && Initial(c, s0) && k <= c.capacity
    ensures Leads(c, s0, plan, t) && Piled(t, k)
  {
    if k == 0 {
      UpIsRunning(c, s0);
      plan, t := UP, Up(c, s0);
    } else {
      plan, t := RequestsPileUp(c, s0, k - 1, track);
      plan, t := OneMorePiled(c, s0, plan, t, k - 1, track);
    }
  }

  /** Shutdown with a refused END message happens, for every capacity: a fair run joins the
      task while the queue is full of requests and holds no END message. */
  lemma RefusedEndIsReached(c: Config, s0: State, track: nat)
    requires ConfigOk(c) && Initial(c, s0)
    ensures exists t ::
              FairlyReachable(c, t) && t.control == Joining && |t.queue| == c.capacity && EndMsg !in t.queue
  {
    var plan, s := RequestsPileUp(c, s0, c.capacity, track);
    LeadsOn(c, s0, plan, s, EndCall);
    var s1 := Next(c, EndCall, s);
    LeadsOn(c, s0, plan + [EndCall], s1, EndSend);
    var t := Next(c, EndSend, s1);
    PlanReaches(c, s0, plan + [EndCall] + [EndSend], t);
  }

  /** An Audio_end before Audio_start whose mutex destroy fails leaves a mute component. */
  lemma MuteIsReached(c: Config, s0: State)
    requires ConfigOk(c) && Initial(c, s0)
    ensures exists t :: FairlyReachable(c, t) && t.phase == Inited && t.control == Free && !Audible(t)
  {
    var s1 := Next(c, InitCall(GRANTED), s0);
    assert s1.phase == Inited && s1.control == Free && s1.speaker.inited && s1.callers == multiset{};
    LeadsOn(c, s0, [], s0, InitCall(GRANTED));
    var s2 := Next(c, EndCall, s1);
    LeadsOn(c, s0, [] + [InitCall(GRANTED)], s1, EndCall);
    var close := EndClose(CloseEnv(true, false, true));
    var t := Next(c, close, s2);
    LeadsOn(c, s0, [] + [InitCall(GRANTED)] + [EndCall], s2, close);
    PlanReaches(c, s0, [] + [InitCall(GRANTED)] + [EndCall] + [close], t);
    assert !Audible(t);
  }

  /** The task waits in its loop for the next request. */
  ghost predicate Serving(s: State) {
    && s.phase == Running && s.control == Free && s.queue == [] && s.callers == multiset{}
    && s.task == Waiting(false)
  }

  /** An open player between two iterations. */
  ghost predicate Sounding(c: Config, s: State)
    requires ConfigOk(c)
  {
    && s.player == AtHead && s.playerPhase == Running && s.speaker.inited
    && s.locals == P.After(c.cat, P.Idle(c.cat), s.h.polls)
  }

  lemma TaskGoesOn(c: Config, s0: State, plan: seq<Action>, s: State) returns (t: State)
    requires ConfigOk(c) && Leads(c, s0, plan, s) && TaskReady(s)
    ensures Leads(c, s0, plan + [TaskStep], t) && t == TaskApply(c, s)
  {
    LeadsOn(c, s0, plan, s, TaskStep);
    t := Next(c, TaskStep, s);
  }

  lemma UpIsServing(c: Config, s0: State) returns (plan: seq<Action>, t: State)
    requires ConfigOk(c) && Initial(c, s0)
    ensures Leads(c, s0, plan, t) && Serving(t) && MailEmpty(c, t) && Sounding(c, t) && t.h.polls == []
    ensures t.h.accepted == [] && t.h.started == [] && t.h.dropped == map[] && t.h.session == 1
  {
    UpIsRunning(c, s0);
    var s1 := TaskGoesOn(c, s0, UP, Up(c, s0));
    var s2 := TaskGoesOn(c, s0, UP + [TaskStep], s1);
    var s3 := TaskGoesOn(c, s0, UP + [TaskStep] + [TaskStep], s2);
    t := TaskGoesOn(c, s0, UP + [TaskStep] + [TaskStep] + [TaskStep], s3);
    plan := UP + [TaskStep] + [TaskStep] + [TaskStep] + [TaskStep];
  }

  /** A fair run in which Audio_end joins while the player still loops. */
  lemma LoopingWhileJoiningIsReached(c: Config, s0: State)
    requires ConfigOk(c) && Initial(c, s0)
    ensures exists t ::
              && FairlyReachable(c, t) && t.control == Joining
              && t.player == AtHead && t.playerPhase == Running && t.task != AtJoin
  {
    var plan, s := UpIsServing(c, s0);
    LeadsOn(c, s0, plan, s, EndCall);
    var s1 := Next(c, EndCall, s);
    LeadsOn(c, s0, plan + [EndCall], s1, EndSend);
    var t := Next(c, EndSend, s1);
    PlanReaches(c, s0, plan + [EndCall] + [EndSend], t);
  }

  /** A request is sent to a serving task, which is woken. */
  lemma RequestIsSent(c: Config, s0: State, before: seq<Action>, s: State, track: nat)
    returns (plan: seq<Action>, t: State)
    requires ConfigOk(c) && Leads(c, s0, before, s) && Serving(s)
    ensures Leads(c, s0, plan, t)
    ensures t == s.(task := Waiting(true), queue := [PlayMsg(track, |s.h.accepted|)],
                    h := s.h.(accepted := s.h.accepted + [Request(s.h.session, track)]))
  {
    LeadsOn(c, s0, before, s, PlayCheck(track));
    var s1 := Next(c, PlayCheck(track), s);
    assert s1.callers == multiset{track};
    LeadsOn(c, s0, before + [PlayCheck(track)], s1, PlaySend(track));
    t := Next(c, PlaySend(track), s1);
    assert t.callers == multiset{};
    plan := before + [PlayCheck(track)] + [PlaySend(track)];
  }

  /** The task takes the request in hand. */
  lemma RequestIsTaken(c: Config, s0: State, before: seq<Action>, s: State, track: nat)
    returns (plan: seq<Action>, t: State)
    requires ConfigOk(c) && Leads(c, s0, before, s) && Serving(s)
    ensures Leads(c, s0, plan, t)
    ensures t == s.(task := Handling(PlayMsg(track, |s.h.accepted|)),
                    h := s.h.(accepted := s.h.accepted + [Request(s.h.session, track)]))
  {
    var sent: State;
    plan, sent := RequestIsSent(c, s0, before, s, track);
    var s1 := TaskGoesOn(c, s0, plan, sent);
    var s2 := TaskGoesOn(c, s0, plan + [TaskStep], s1);
    t := TaskGoesOn(c, s0, plan + [TaskStep] + [TaskStep], s2);
    plan := plan + [TaskStep] + [TaskStep] + [TaskStep];
  }

  /** It delivers the request and serves again. */
  lemma RequestIsDelivered(c: Config, s0: State, before: seq<Action>, s: State, track: nat)
    returns (plan: seq<Action>, t: State)
    requires ConfigOk(c) && Leads(c, s0, before, s) && Serving(s)
    ensures Leads(c, s0, plan, t) && Serving(t)
    ensures var n := |s.h.accepted|;
            && t.mailbox == Mail(track, n) && t.h.started == s.h.started
            && t.h.accepted == s.h.accepted + [Request(s.h.session, track)] && t.h.session == s.h.session
            && t.h.dropped == Deliver(c, s, track, n).h.dropped
    ensures Sounding(c, s) ==> Sounding(c, t) && t.h.polls == s.h.polls
  {
    var taken: State;
    plan, taken := RequestIsTaken(c, s0, before, s, track);
    var s1 := TaskGoesOn(c, s0, plan, taken);
    var s2 := TaskGoesOn(c, s0, plan + [TaskStep], s1);
    var s3 := TaskGoesOn(c, s0, plan + [TaskStep] + [TaskStep], s2);
    t := TaskGoesOn(c, s0, plan + [TaskStep] + [TaskStep] + [TaskStep], s3);
    plan := plan + [TaskStep] + [TaskStep] + [TaskStep] + [TaskStep];
  }

  /** A request for the sentinel id is accepted and delivered, is void, and takes the request
      before it along: both are lost, although the component runs and the queue is empty. */
  lemma SentinelRequestIsLost(c: Config, s0: State, track: nat)
    requires ConfigOk(c) && Initial(c, s0) && track != c.cat.maxTracks
    ensures exists t ::
              && FairlyReachable(c, t) && t.phase == Running && t.queue == [] && MailEmpty(c, t)
              && t.h.accepted == [Request(1, track), Request(1, c.cat.maxTracks)] && t.h.started == []
              && t.h.dropped == map[0 := Overwritten(1), 1 := Sentinel]
  {
    var plan, s := UpIsServing(c, s0);
    var plan1, s1 := RequestIsDelivered(c, s0, plan, s, track);
    assert s1.h.accepted == [Request(1, track)] && s1.h.dropped == map[];
    var plan2, t := RequestIsDelivered(c, s0, plan1, s1, c.cat.maxTracks);
    assert t.h.accepted == [Request(1, track), Request(1, c.cat.maxTracks)];
    PlanReaches(c, s0, plan2, t);
  }
}
