/** The audio threads as one transition system: API callers, the audio task and the player
    interleave step by step, each with a program counter (Audio.c).

    A step covers a stretch of code that no other thread can observe half done: the audio
    mutex admits one Audio_init, Audio_start or Audio_end at a time; the message mutex is
    held by the task across its steps (HoldsLock) and by a sender inside its one step.
    pthread_cond_wait releases the message mutex and waits in one step and may wake up
    without a signal. */
module Protocol {
  import opened Common
  import opened Music
  import opened Period
  import opened Lifecycle
  import P = Player
  import Speaker

  datatype Config = Config(cat: Catalogue, capacity: nat, q: Quotient)

  predicate ConfigOk(c: Config) {
    RhythmCoversMelody(c.cat) && c.capacity > 0
  }

  /** Progress of the one API call that holds the audio mutex. */
  datatype Control =
    | Free
    | Starting   // thread created, Running not yet stored
    | Sending    // Ending stored, END message not yet sent
    | Joining    // in pthread_join on the task
    | Closing    // joined, or there was nothing to join

  datatype Task =
    | NoTask
    | AtLock | AtSpawn
    | AtCheck                    // while (MyState == Running)
    | AtGet                      // GetMessage
    | Waiting(signalled: bool) | AtRelock
    | Handling(msg: Msg)         // ProcessMessage
    | AtNextLock | AtEndLock
    | AtEnding | AtStop | AtJoin // MyState = Ending; PlayerState = Ending; join the player
    | TaskDone

  datatype PlayerPc =
    | NoPlayer
    | AtHead                     // while (PlayerState == Running)
    | AtPoll                     // one iteration
    | AtClear | AtSilence        // NextTrackID = MaxTracks; Speaker_PlayPitch(0)
    | PlayerDone

  /** The one-slot mailbox NextTrackID, empty when it holds the sentinel. */
  datatype Mail = Mail(track: nat, ticket: nat)

  // Bookkeeping that no step depends on.
  datatype Request = Request(session: nat, track: nat)
  datatype Start = Start(session: nat, ticket: nat, track: nat)

  /** Why an accepted request never reached the player. */
  datatype Drop = Overwritten(later: nat) | Sentinel | CutOff

  datatype History = History(
    session: nat,             // how many times Audio_start created a task
    accepted: seq<Request>,   // play requests the queue accepted; the index is the ticket
    started: seq<Start>,      // requests the player consumed
    dropped: map<nat, Drop>,  // tickets that can no longer be consumed
    polls: seq<nat>,          // what the current player found in the mailbox, tick by tick
    uncached: Speaker.Regs)   // the registers of a driver without the pitch cache

  datatype State = State(
    phase: Phase, playerPhase: Phase, mailbox: Mail, queue: seq<Msg>, speaker: Speaker.Speaker,
    control: Control, callers: multiset<nat>, task: Task, player: PlayerPc, locals: P.Locals,
    h: History)

  datatype Action =
    | InitCall(initEnv: InitEnv)
    | StartCall(created: bool) | StartStore
    | EndCall | EndSend | EndJoin | EndClose(closeEnv: CloseEnv)
    | PlayCheck(track: nat) | PlaySend(track: nat)
    | TaskStep | SpuriousWakeup
    | PlayerStep
    | Stutter

  ghost predicate Initial(c: Config, s: State) {
    && s.phase == Ended && s.playerPhase == Ended
    && s.mailbox.track == c.cat.maxTracks && s.queue == []
    && !s.speaker.inited && s.speaker.cache == 0 && Speaker.Sounds(c.q, s.speaker.regs, 0)
    && s.control == Free && s.callers == multiset{} && s.task == NoTask && s.player == NoPlayer
    && s.h == History(0, [], [], map[], [], s.speaker.regs)
  }

  // ---- Which steps can be taken ----

  predicate HoldsLock(t: Task) {
    t.AtSpawn? || t.AtCheck? || t.AtGet? || t.AtEnding?
  }

  predicate LockFree(s: State) {
    !HoldsLock(s.task)
  }

  /** The task's next step. Its first check of MyState is assumed to come after the store
      of Running: the code creates the thread before it stores. */
  predicate TaskReady(s: State) {
    match s.task
    case NoTask => false
    case TaskDone => false
    case AtLock => LockFree(s)
    case AtRelock => LockFree(s)
    case AtNextLock => LockFree(s)
    case AtEndLock => LockFree(s)
    case AtCheck => s.control != Starting
    case Waiting(signalled) => signalled
    case AtJoin => s.player == PlayerDone
    case _ => true
  }

  predicate PlayerReady(s: State) {
    s.player != NoPlayer && s.player != PlayerDone
  }

  /** A closing destroys the message mutex, so no Audio_PlayTrack is assumed to be between
      its check and its send. */
  predicate Enabled(a: Action, s: State) {
    match a
    case InitCall(_) => s.control == Free
    case StartCall(_) => s.control == Free
    case StartStore => s.control == Starting
    case EndCall => s.control == Free
    case EndSend => s.control == Sending && LockFree(s)
    case EndJoin => s.control == Joining && s.task == TaskDone
    case EndClose(_) => s.control == Closing && s.callers == multiset{}
    case PlayCheck(_) => true
    case PlaySend(track) => track in s.callers && LockFree(s)
    case TaskStep => TaskReady(s)
    case SpuriousWakeup => s.task.Waiting?
    case PlayerStep => PlayerReady(s)
    case Stutter => true
  }

  // ---- What the steps do ----

  function Comp(s: State): Component {
    Component(s.phase, s.speaker, s.queue)
  }

  function WithComp(s: State, k: Component): State {
    s.(phase := k.phase, speaker := k.speaker, queue := k.queue)
  }

  function Tickets(queue: seq<Msg>): seq<nat> {
    if queue == [] then []
    else (if queue[0].PlayMsg? then [queue[0].ticket] else []) + Tickets(queue[1..])
  }

  function DropAll(dropped: map<nat, Drop>, tickets: seq<nat>): map<nat, Drop> {
    dropped + map t | t in tickets :: CutOff
  }

  /** SendMessage with room in the queue: the message goes last and the task is signalled. */
  function Enqueue(s: State, m: Msg): State {
    s.(queue := s.queue + [m], task := if s.task.Waiting? then Waiting(true) else s.task)
  }

  function ControlApply(c: Config, a: Action, s: State): State
    requires a.InitCall? || a.StartCall? || a.StartStore? || a.EndCall? || a.EndSend? || a.EndJoin? || a.EndClose?
  {
    match a
    case InitCall(env) => WithComp(s, InitComponent(Comp(s), env).0)
    case StartCall(created) =>
      if s.phase != Inited || !created then s
      else s.(control := Starting, task := AtLock, player := NoPlayer, h := s.h.(session := s.h.session + 1))
    case StartStore => s.(phase := Running, control := Free)
    case EndCall =>
      if s.phase == Ended then s
      else if s.phase == Running then s.(phase := Ending, control := Sending)
      else s.(control := Closing)
    case EndSend => (if |s.queue| < c.capacity then Enqueue(s, EndMsg) else s).(control := Joining)
    case EndJoin => s.(control := Closing)
    case EndClose(env) =>
      var k := CloseComponent(Comp(s), env).0;
      WithComp(s, k).(
        control := Free,
        h := s.h.(
          dropped := DropAll(s.h.dropped, Tickets(s.queue)),
          uncached := if s.speaker.inited && !k.speaker.inited then Speaker.UncachedPlay(c.q, s.h.uncached, 0)
                      else s.h.uncached))
  }

  function CallerApply(c: Config, a: Action, s: State): State
    requires a.PlayCheck? || a.PlaySend?
  {
    match a
    case PlayCheck(track) => if s.phase == Running then s.(callers := s.callers + multiset{track}) else s
    case PlaySend(track) =>
      var t := s.(callers := s.callers - multiset{track});
      if |s.queue| < c.capacity then
        Enqueue(t, PlayMsg(track, |s.h.accepted|)).(
          h := s.h.(accepted := s.h.accepted + [Request(s.h.session, track)]))
      else t
  }

  /** PlayTrackID: whatever the mailbox still held is overwritten. A request for the
      sentinel id empties it. */
  function Deliver(c: Config, s: State, track: nat, ticket: nat): State {
    var d := if s.mailbox.track != c.cat.maxTracks then s.h.dropped[s.mailbox.ticket := Overwritten(ticket)]
             else s.h.dropped;
    s.(mailbox := Mail(track, ticket), task := AtNextLock,
       h := s.h.(dropped := if track == c.cat.maxTracks then d[ticket := Sentinel] else d))
  }

  function TaskApply(c: Config, s: State): State {
    match s.task
    case AtLock => s.(task := AtSpawn)
    case AtSpawn => s.(playerPhase := Running, player := AtHead, locals := P.Idle(c.cat), task := AtCheck,
                       h := s.h.(polls := []))
    case AtCheck => s.(task := if s.phase == Running then AtGet else AtEnding)
    case AtGet =>
      if s.queue == [] then s.(task := Waiting(false))
      else s.(queue := s.queue[1..], task := Handling(s.queue[0]))
    case Waiting(_) => s.(task := AtRelock)
    case AtRelock => s.(task := AtGet)
    case Handling(EndMsg) => s.(task := AtEndLock)
    case Handling(PlayMsg(track, ticket)) => Deliver(c, s, track, ticket)
    case AtNextLock => s.(task := AtCheck)
    case AtEndLock => s.(task := AtEnding)
    case AtEnding => s.(phase := Ending, task := AtStop)
    case AtStop => s.(playerPhase := Ending, task := AtJoin)
    case AtJoin => s.(playerPhase := Ended, task := TaskDone)
    case _ => s
  }

  /** Sends pitches to the speaker and, beside it, to the driver without a cache. */
  function Sing(c: Config, s: State, calls: seq<uint16>): State {
    s.(speaker := Speaker.PlayAll(c.q, s.speaker, calls),
       h := if s.speaker.inited then s.h.(uncached := Speaker.UncachedPlayAll(c.q, s.h.uncached, calls)) else s.h)
  }

  ghost function Iterate(c: Config, s: State): State
    requires ConfigOk(c) && P.LocalsOk(c.cat, s.locals)
  {
    var found := s.mailbox;
    var (l, calls) := P.Tick(c.cat, s.locals, found.track);
    var t := Sing(c, s, calls).(mailbox := Mail(c.cat.maxTracks, 0), locals := l, player := AtHead);
    t.(h := t.h.(
      polls := s.h.polls + [found.track],
      started := s.h.started + if found.track == c.cat.maxTracks then []
                               else [Start(s.h.session, found.ticket, found.track)]))
  }

  ghost function PlayerApply(c: Config, s: State): State
    requires ConfigOk(c) && (s.player == AtPoll ==> P.LocalsOk(c.cat, s.locals))
  {
    match s.player
    case AtHead => s.(player := if s.playerPhase == Running then AtPoll else AtClear)
    case AtPoll => Iterate(c, s)
    case AtClear =>
      s.(mailbox := Mail(c.cat.maxTracks, 0), player := AtSilence,
         h := if s.mailbox.track == c.cat.maxTracks then s.h
              else s.h.(dropped := s.h.dropped[s.mailbox.ticket := CutOff]))
    case AtSilence => Sing(c, s, [0]).(player := PlayerDone)
    case _ => s
  }

  ghost predicate Step(c: Config, a: Action, s: State, t: State)
    requires ConfigOk(c)
  {
    && Enabled(a, s)
    && match a
       case PlayCheck(_) => t == CallerApply(c, a, s)
       case PlaySend(_) => t == CallerApply(c, a, s)
       case TaskStep => t == TaskApply(c, s)
       case SpuriousWakeup => t == TaskApply(c, s)
       // reading outside the track tables would be undefined: then anything may follow
       case PlayerStep => (s.player == AtPoll ==> P.LocalsOk(c.cat, s.locals)) ==> t == PlayerApply(c, s)
       case Stutter => t == s
       case _ => t == ControlApply(c, a, s)
  }

  ghost predicate StepAt(c: Config, run: nat -> State, act: nat -> Action, i: nat)
    requires ConfigOk(c)
  {
    Step(c, act(i), run(i), run(i + 1))
  }

  /** A run of the system: any interleaving, going on forever (by stuttering if need be). */
  ghost predicate Execution(c: Config, run: nat -> State, act: nat -> Action)
    requires ConfigOk(c)
  {
    Initial(c, run(0)) && forall i: nat :: StepAt(c, run, act, i)
  }

  // ---- Every scheduler has a run ----

  ghost function Next(c: Config, a: Action, s: State): (t: State)
    requires ConfigOk(c) && Enabled(a, s)
    ensures Step(c, a, s, t)
  {
    match a
    case PlayCheck(_) => CallerApply(c, a, s)
    case PlaySend(_) => CallerApply(c, a, s)
    case TaskStep => TaskApply(c, s)
    case SpuriousWakeup => TaskApply(c, s)
    case PlayerStep => if s.player == AtPoll && !P.LocalsOk(c.cat, s.locals) then s else PlayerApply(c, s)
    case Stutter => s
    case _ => ControlApply(c, a, s)
  }

  /** The scheduler's choice at a step, or none when it cannot be taken. */
  function Allowed(pick: (nat, State) -> Action, i: nat, s: State): Action {
    if Enabled(pick(i, s), s) then pick(i, s) else Stutter
  }

  ghost function Scheduled(c: Config, s0: State, pick: (nat, State) -> Action, i: nat): State
    requires ConfigOk(c)
  {
    if i == 0 then s0
    else
      var s := Scheduled(c, s0, pick, i - 1);
      Next(c, Allowed(pick, i - 1, s), s)
  }

  ghost function ScheduledRun(c: Config, s0: State, pick: (nat, State) -> Action): nat -> State
    requires ConfigOk(c)
  {
    (i: nat) => Scheduled(c, s0, pick, i)
  }

  ghost function ScheduledActions(c: Config, s0: State, pick: (nat, State) -> Action): nat -> Action
    requires ConfigOk(c)
  {
    (i: nat) => Allowed(pick, i, Scheduled(c, s0, pick, i))
  }

  /** Whatever a scheduler picks from an initial state, knowing the state and the step, is a
      run. */
  lemma EverySchedulerHasARun(c: Config, s0: State, pick: (nat, State) -> Action)
    requires ConfigOk(c) && Initial(c, s0)
    ensures Execution(c, ScheduledRun(c, s0, pick), ScheduledActions(c, s0, pick))
  {
    forall i: nat ensures StepAt(c, ScheduledRun(c, s0, pick), ScheduledActions(c, s0, pick), i) {
      ScheduledStep(c, s0, pick, i);
    }
  }

  lemma ScheduledStep(c: Config, s0: State, pick: (nat, State) -> Action, i: nat)
    requires ConfigOk(c)
    ensures StepAt(c, ScheduledRun(c, s0, pick), ScheduledActions(c, s0, pick), i)
  {
    var s := Scheduled(c, s0, pick, i);
    assert Scheduled(c, s0, pick, i + 1) == Next(c, Allowed(pick, i, s), s);
  }
}
