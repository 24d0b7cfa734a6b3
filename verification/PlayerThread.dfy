/** The player thread as it runs: loop variables updated in place and pitches sent to the
    speaker driver, proved against the rendering. */
module PlayerThread {
  import opened Common
  import opened Music
  import opened Period
  import opened Player
  import Speaker

  /** The variables of PlayerTaskLoop, which live as long as the thread. */
  class Thread {
    const cat: Catalogue
    const speaker: Speaker.SpeakerDevice
    var tickCount: nat
    var noteIndex: nat
    var currTrack: nat
    var melody: Option<seq<uint16>>
    var rhythm: Option<seq<uint16>>
    var len: nat
    /** The pitches sent so far, and the speaker and its writes before them. */
    ghost var sent: seq<uint16>
    ghost const before: Speaker.Speaker
    ghost const logBefore: seq<Speaker.Regs>

    /** The speaker is where the pitches sent have led it. */
    ghost predicate Valid()
      reads this, speaker
    {
      && RhythmCoversMelody(cat)
      && LocalsOk(cat, Vars())
      && SpeakerFollows()
    }

    ghost predicate SpeakerFollows()
      reads this`sent, speaker
    {
      && speaker.Value() == Speaker.PlayAll(speaker.q, before, sent)
      && speaker.log == logBefore + Speaker.WritesOfAll(speaker.q, before, sent)
    }

    function Vars(): Locals
      reads this
    {
      Locals(tickCount, noteIndex, currTrack, melody, rhythm, len)
    }

    constructor (cat: Catalogue, speaker: Speaker.SpeakerDevice)
      requires RhythmCoversMelody(cat)
      ensures Valid() && this.cat == cat && this.speaker == speaker
      ensures Vars() == Idle(cat) && sent == []
      ensures before == speaker.Value() && logBefore == speaker.log
    {
      this.cat, this.speaker := cat, speaker;
      tickCount, noteIndex, currTrack := 0, 0, cat.maxTracks;
      melody, rhythm, len := None, None, 0;
      sent, before, logBefore := [], speaker.Value(), speaker.log;
    }

    /** Speaker_PlayPitch; its error code is ignored. */
    method Send(frequency: uint16)
      requires SpeakerFollows()
      modifies this`sent, speaker
      ensures SpeakerFollows() && sent == old(sent) + [frequency]
    {
      Speaker.PlayAllSnoc(speaker.q, before, sent, frequency);
      var _ := speaker.PlayPitch(frequency);
      sent := sent + [frequency];
    }

    /** The body of the loop after the mailbox has been emptied into `tempNext`. */
    method Iterate(tempNext: nat)
      requires Valid()
      modifies this, speaker
      ensures Valid()
      ensures Vars() == Tick(cat, old(Vars()), tempNext).0
      ensures sent == old(sent) + Tick(cat, old(Vars()), tempNext).1
    {
      if tempNext != cat.maxTracks {
        noteIndex := 0;
        tickCount := 0;
        melody := None;
        rhythm := None;
        currTrack := tempNext;
      }
      if currTrack >= cat.maxTracks {
        Send(0);
        return;
      }
      if noteIndex == 0 && (melody == None || rhythm == None) {
        var found := GetTrack(cat, currTrack);
        if found == None {
          melody := None;
          rhythm := None;
          currTrack := cat.maxTracks;
          Send(0);
          return;
        }
        melody, rhythm, len := Some(found.value.melody), Some(found.value.rhythm), |found.value.melody|;
      }
      if melody == None || rhythm == None || noteIndex >= len {
        currTrack := cat.maxTracks;
        Send(0);
        return;
      }
      SoundNote();
    }

    /** The part of the body that plays the current note. */
    method SoundNote()
      requires RhythmCoversMelody(cat) && SpeakerFollows()
      requires Loaded(cat, Vars()) && Busy(cat, Vars()) && noteIndex < len
      modifies this, speaker
      ensures SpeakerFollows()
      ensures Vars() == PlayNote(cat, old(Vars())).0
      ensures sent == old(sent) + PlayNote(cat, old(Vars())).1
    {
      CountNote();
      FinishTrack();
    }

    method CountNote()
      requires RhythmCoversMelody(cat) && SpeakerFollows()
      requires Loaded(cat, Vars()) && noteIndex < len
      modifies this`tickCount, this`noteIndex, this`sent, speaker
      ensures SpeakerFollows()
      ensures Vars() == CountTick(cat, old(Vars())).0
      ensures sent == old(sent) + CountTick(cat, old(Vars())).1
    {
      if tickCount == 0 {
        Send(melody.value[noteIndex]);
      }
      if tickCount >= rhythm.value[noteIndex] {
        tickCount := 0;
        noteIndex := noteIndex + 1;
        Send(0);
      } else {
        tickCount := tickCount + 1;
      }
    }

    /** The last statement of the body: a track whose notes are used up is forgotten. */
    method FinishTrack()
      modifies this`noteIndex, this`melody, this`rhythm, this`currTrack, this`len
      ensures Vars() == Finish(cat, old(Vars()))
    {
      if noteIndex >= len {
        noteIndex := 0;
        melody := None;
        rhythm := None;
        currTrack := cat.maxTracks;
        len := 0;
      }
    }

    /** Runs one iteration per entry of `polls`, the ids found in the mailbox, and then
        silences the speaker. `frames` holds the registers at the end of each iteration. */
    method PlayerTaskLoop(polls: seq<nat>) returns (frames: seq<Speaker.Regs>)
      requires Valid() && Vars() == Idle(cat) && sent == []
      modifies this, speaker
      // the hardware after every iteration of a run started from a silent open speaker
      ensures |frames| == |polls|
      ensures Silent(speaker.q, old(speaker.Value())) ==>
                && (forall i | 0 <= i < |polls| ::
                      Speaker.Sounds(speaker.q, frames[i], HeldPitch(cat, polls[..i + 1])))
                && Silent(speaker.q, speaker.Value())
      // every write, in order, from any speaker state
      ensures var calls := AllCalls(cat, Idle(cat), polls) + [0];
              && speaker.Value() == Speaker.PlayAll(speaker.q, old(speaker.Value()), calls)
              && speaker.log == old(speaker.log) + Speaker.WritesOfAll(speaker.q, old(speaker.Value()), calls)
    {
      assert before == speaker.Value() && logBefore == speaker.log;
      frames := [];
      for k := 0 to |polls|
        invariant |frames| == k
        invariant Valid()
        invariant Vars() == After(cat, Idle(cat), polls[..k])
        invariant sent == AllCalls(cat, Idle(cat), polls[..k])
        invariant FramesFollow(speaker.q, before, cat, frames, polls)
      {
        assert polls[..k + 1][..k] == polls[..k];
        Iterate(polls[k]);
        FramesExtend(speaker.q, before, cat, frames, polls, speaker.Registers());
        frames := frames + [speaker.Registers()];
      }
      assert polls[..|polls|] == polls;
      SilenceAfter(speaker.q, before, sent);
      Send(0);
    }
  }

  ghost predicate Silent(q: Quotient, s: Speaker.Speaker) {
    s.inited && s.cache == 0 && Speaker.Sounds(q, s.regs, 0)
  }

  /** The registers at the end of each iteration sound what the rendering says. */
  ghost predicate FramesFollow(q: Quotient, s0: Speaker.Speaker, cat: Catalogue,
                               frames: seq<Speaker.Regs>, polls: seq<nat>)
    requires RhythmCoversMelody(cat)
  {
    && |frames| <= |polls|
    && (Silent(q, s0) ==>
          forall i | 0 <= i < |frames| :: Speaker.Sounds(q, frames[i], HeldPitch(cat, polls[..i + 1])))
  }

  lemma FramesExtend(q: Quotient, s0: Speaker.Speaker, cat: Catalogue,
                     frames: seq<Speaker.Regs>, polls: seq<nat>, r: Speaker.Regs)
    requires RhythmCoversMelody(cat) && FramesFollow(q, s0, cat, frames, polls) && |frames| < |polls|
    requires r == Speaker.PlayAll(q, s0, AllCalls(cat, Idle(cat), polls[..|frames| + 1])).regs
    ensures FramesFollow(q, s0, cat, frames + [r], polls)
  {
    RunSounds(q, s0, cat, polls[..|frames| + 1]);
  }

  /** The hardware after a run sounds what the rendering says. */
  lemma RunSounds(q: Quotient, s0: Speaker.Speaker, cat: Catalogue, polls: seq<nat>)
    requires RhythmCoversMelody(cat)
    ensures Silent(q, s0) ==>
            Speaker.Sounds(q, Speaker.PlayAll(q, s0, AllCalls(cat, Idle(cat), polls)).regs, HeldPitch(cat, polls))
  {
    if Silent(q, s0) {
      Speaker.CacheRefinesUncached(q, s0, s0.regs, AllCalls(cat, Idle(cat), polls));
      RunRenders(cat, polls);
    }
  }

  lemma SilenceAfter(q: Quotient, s0: Speaker.Speaker, calls: seq<uint16>)
    ensures Silent(q, s0) ==> Silent(q, Speaker.PlayAll(q, s0, calls + [0]))
  {
    if Silent(q, s0) {
      Speaker.CacheRefinesUncached(q, s0, s0.regs, calls + [0]);
    }
  }
}
