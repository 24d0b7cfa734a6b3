/** The life cycle of the audio component: what Audio_init, Audio_start, Audio_end and
    Audio_PlayTrack do to the component's state and to the speaker and queue it owns, with
    every call that can fail allowed to fail (Audio.c). */
module Lifecycle {
  import opened MessageQueue
  import Speaker

  datatype Phase = Ended | Inited | Running | Ending

  datatype Code =
    | Ok | TaskRunning | TaskStopped | TaskCreate | NullMsgQueue | QueueFull
    | HardwareInit | HardwareDeinit | MutexDestroy | CondDestroy

  /** `ticket` numbers the accepted play requests; the program does not carry it. */
  datatype Msg = EndMsg | PlayMsg(track: nat, ticket: nat)

  datatype InitEnv = InitEnv(mutexOk: bool, condOk: bool, speaker: Speaker.Environment)

  datatype CloseEnv = CloseEnv(speakerLockOk: bool, mutexOk: bool, condOk: bool)

  datatype Component = Component(phase: Phase, speaker: Speaker.Speaker, queue: seq<Msg>)

  function InitComponent(c: Component, env: InitEnv): (Component, Code) {
    if c.phase != Ended then (c, TaskRunning)
    else if !env.mutexOk || !env.condOk then (c, NullMsgQueue)
    else
      var (s, e) := Speaker.Init(c.speaker, env.speaker);
      if e == Speaker.NoError then (Component(Inited, s, []), Ok)
      else (Component(Ended, s, []), HardwareInit)
  }

  /** The second half of Audio_end, once no thread runs. A speaker that is already closed is
      tolerated; a later error replaces an earlier one. */
  function CloseComponent(c: Component, env: CloseEnv): (Component, Code) {
    if c.phase != Ending && c.phase != Inited then (c, TaskRunning)
    else
      var s := if env.speakerLockOk then Speaker.DeInit(c.speaker).0 else c.speaker;
      var code :=
        if !env.condOk then CondDestroy
        else if !env.mutexOk then MutexDestroy
        else if !env.speakerLockOk then HardwareDeinit
        else Ok;
      (Component(if code == Ok then Ended else c.phase, s, []), code)
  }

  /** Initialisation succeeds exactly from Ended, with a closed speaker, when everything it
      asks for is granted; it then leaves an open speaker and an empty queue. Otherwise the
      phase stays, and a component that is up is not touched at all. */
  lemma InitComponentOutcome(c: Component, env: InitEnv)
    ensures var (d, code) := InitComponent(c, env);
            && (code == Ok <==>
                  && c.phase == Ended && env.mutexOk && env.condOk
                  && Speaker.Init(c.speaker, env.speaker).1 == Speaker.NoError)
            && (code == Ok ==>
                  d.phase == Inited && d.queue == [] && d.speaker.inited && Speaker.PinsHeld(d.speaker))
            && (code != Ok ==> d.phase == c.phase && d.speaker.inited == c.speaker.inited)
            && (c.phase != Ended ==> d == c)
  {
    Speaker.InitOutcome(c.speaker, env.speaker);
  }

  /** Which code an initialisation returns. */
  lemma InitCodes(c: Component, env: InitEnv)
    ensures var (d, code) := InitComponent(c, env);
            && (code == TaskRunning <==> c.phase != Ended)
            && (code == NullMsgQueue <==> c.phase == Ended && !(env.mutexOk && env.condOk))
            && (code == HardwareInit <==>
                  && c.phase == Ended && env.mutexOk && env.condOk
                  && Speaker.Init(c.speaker, env.speaker).1 != Speaker.NoError)
            // the queue is emptied as soon as mutex and condition variable are there
            && d.queue == (if code == Ok || code == HardwareInit then [] else c.queue)
            && (code != Ok && code != HardwareInit ==> d == c)
  {
  }

  /** Which code a closing returns: the last failure, the speaker being closed first, then
      the mutex and the condition variable being destroyed. */
  lemma CloseCodes(c: Component, env: CloseEnv)
    ensures var (d, code) := CloseComponent(c, env);
            var open := c.phase == Ending || c.phase == Inited;
            && (code == TaskRunning <==> !open)
            && (code == CondDestroy <==> open && !env.condOk)
            && (code == MutexDestroy <==> open && env.condOk && !env.mutexOk)
            && (code == HardwareDeinit <==> open && env.condOk && env.mutexOk && !env.speakerLockOk)
            && d.speaker == (if open && env.speakerLockOk then Speaker.DeInit(c.speaker).0 else c.speaker)
            && d.phase == (if code == Ok then Ended else c.phase)
            && d.queue == (if open then [] else c.queue)
            && (code == TaskRunning ==> d == c)
  {
  }

  /** Closing succeeds exactly when nothing fails, and then the component and its speaker
      are both ended, with silent registers and released pins. */
  lemma CloseOutcome(c: Component, env: CloseEnv)
    requires c.phase == Ending || c.phase == Inited
    requires !c.speaker.inited ==> c.speaker.regs.duty == 0 && c.speaker.regs.enable == 0
    requires !c.speaker.inited ==> Speaker.PinsReleased(c.speaker)
    ensures var (d, code) := CloseComponent(c, env);
            && (code == Ok <==> env == CloseEnv(true, true, true))
            && (d.phase == Ended <==> code == Ok)
            && d.queue == []
            && (code == Ok ==>
                  && !d.speaker.inited && Speaker.PinsReleased(d.speaker)
                  && d.speaker.regs.duty == 0 && d.speaker.regs.enable == 0)
  {
  }

  /** A failed Audio_end can be repeated: whatever failed before, a second closing whose
      calls succeed ends the component. */
  lemma CloseCanBeRetried(c: Component, env: CloseEnv)
    requires c.phase == Ending || c.phase == Inited
    requires CloseComponent(c, env).1 != Ok
    ensures CloseComponent(CloseComponent(c, env).0, CloseEnv(true, true, true)).1 == Ok
    ensures var d := CloseComponent(CloseComponent(c, env).0, CloseEnv(true, true, true)).0;
            d.phase == Ended && !d.speaker.inited
  {
  }

  /** The component can still be started but its speaker is closed. */
  predicate Startable(c: Component) { c.phase == Inited }

  predicate Mute(c: Component) { Startable(c) && !c.speaker.inited }

  /** A failed Audio_end can leave a mute component that Audio_start accepts: exactly when
      it was called before Audio_start, the speaker was closed, and a destroy failed. */
  lemma FailedCloseLeavesMute(c: Component, env: CloseEnv)
    requires c.phase == Ending || c.phase == Inited
    requires c.speaker.inited
    ensures Mute(CloseComponent(c, env).0) <==> c.phase == Inited && env.speakerLockOk && !(env.mutexOk && env.condOk)
  {
  }

  class Audio {
    var phase: Phase
    const speaker: Speaker.SpeakerDevice
    const queue: MsgQueue<Msg>

    ghost predicate Valid()
      reads this, queue
    {
      queue.Valid()
    }

    ghost function Value(): Component
      requires Valid()
      reads this, speaker, queue, queue.ring
    {
      Component(phase, speaker.Value(), queue.Pending())
    }

    constructor (speaker: Speaker.SpeakerDevice, capacity: nat)
      requires capacity > 0
      ensures Valid() && this.speaker == speaker && phase == Ended && fresh(queue) && fresh(queue.ring)
      ensures queue.Pending() == [] && queue.ring.Length == capacity
    {
      phase := Ended;
      this.speaker := speaker;
      queue := new MsgQueue<Msg>(capacity, 0);
    }

    /** InitMessaging. */
    method InitMessaging(env: InitEnv) returns (ok: bool)
      requires Valid()
      modifies queue
      ensures Valid()
      ensures ok == (env.mutexOk && env.condOk)
      ensures queue.Pending() == if ok then [] else old(queue.Pending())
    {
      if !env.mutexOk {
        return false;
      }
      if !env.condOk {
        return false;
      }
      queue.Reset();
      return true;
    }

    method Init(env: InitEnv) returns (code: Code)
      requires Valid()
      modifies this, speaker, queue
      ensures Valid()
      ensures (Value(), code) == InitComponent(old(Value()), env)
    {
      code := Ok;
      if phase != Ended {
        return TaskRunning;
      }
      var messaging := InitMessaging(env);
      if !messaging {
        return NullMsgQueue;
      }
      var error := speaker.Open(env.speaker);
      if error != Speaker.NoError {
        return HardwareInit;
      }
      phase := Inited;
    }

    method Start(created: bool) returns (code: Code)
      requires Valid()
      modifies this`phase
      ensures Valid()
      ensures code == if old(phase) != Inited then TaskRunning else if !created then TaskCreate else Ok
      ensures Value() == if code == Ok then old(Value()).(phase := Running) else old(Value())
    {
      if phase != Inited {
        return TaskRunning;
      }
      if !created {
        return TaskCreate;
      }
      phase := Running;
      return Ok;
    }

    /** The first half of Audio_end: stores Ending and sends the END message, whose refusal
        by a full queue is ignored. The task has to be joined when it returns true. */
    method AnnounceEnd() returns (joins: bool)
      requires Valid()
      modifies this`phase, queue, queue.ring
      ensures Valid()
      ensures joins == (old(phase) == Running)
      ensures Value() ==
              if joins then old(Value()).(
                phase := Ending,
                queue := if |old(queue.Pending())| < queue.ring.Length
                         then old(queue.Pending()) + [EndMsg] else old(queue.Pending()))
              else old(Value())
    {
      joins := false;
      if phase == Running {
        phase := Ending;
        var _ := queue.Send(EndMsg);
        joins := true;
      }
    }

    /** The second half of Audio_end, after the join. */
    method Close(env: CloseEnv) returns (code: Code)
      requires Valid()
      modifies this`phase, speaker, queue
      ensures Valid()
      ensures (Value(), code) == CloseComponent(old(Value()), env)
    {
      code := Ok;
      if phase == Ending || phase == Inited {
        if env.speakerLockOk {
          // an already closed speaker is fine
          var error := speaker.Close();
          assert error == Speaker.NoError || error == Speaker.StateError;
        } else {
          code := HardwareDeinit;
        }
        if !env.mutexOk {
          code := MutexDestroy;
        }
        if !env.condOk {
          code := CondDestroy;
        }
        queue.Discard();
        if code == Ok {
          phase := Ended;
        }
      } else {
        code := TaskRunning;
      }
    }

    method PlayTrack(track: nat, ticket: nat) returns (code: Code)
      requires Valid()
      modifies queue, queue.ring
      ensures Valid()
      ensures code == if phase != Running then TaskStopped
                      else if |old(queue.Pending())| < queue.ring.Length then Ok else QueueFull
      ensures Value() ==
              if code == Ok then old(Value()).(queue := old(queue.Pending()) + [PlayMsg(track, ticket)])
              else old(Value())
    {
      if phase == Running {
        var ok := queue.Send(PlayMsg(track, ticket));
        return if ok then Ok else QueueFull;
      }
      return TaskStopped;
    }
  }
}
