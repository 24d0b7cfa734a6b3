/** The player thread: one iteration per tick, driven by what it finds in the mailbox
    (PlayerTaskLoop in Audio.c), against a declarative rendering of the tracks. */
module Player {
  import opened Common
  import opened Music
  import Speaker

  /** Loop variables of the thread; None is a NULL pointer. */
  datatype Locals = Locals(tick: nat, note: nat, curr: nat,
                           melody: Option<seq<uint16>>, rhythm: Option<seq<uint16>>, len: nat)

  function Idle(cat: Catalogue): Locals {
    Locals(0, 0, cat.maxTracks, None, None, 0)
  }

  predicate Busy(cat: Catalogue, l: Locals) {
    l.curr < cat.maxTracks
  }

  /** At the head of the loop a current track is loaded from its table, and both array
      reads of the next iteration are in range. */
  ghost predicate LocalsOk(cat: Catalogue, l: Locals) {
    Busy(cat, l) ==>
      && Loaded(cat, l)
      && l.note < l.len <= |l.rhythm.value|
      && l.tick <= l.rhythm.value[l.note]
  }

  ghost predicate Loaded(cat: Catalogue, l: Locals) {
    && l.curr in cat.tracks
    && l.melody == Some(cat.tracks[l.curr].melody)
    && l.rhythm == Some(cat.tracks[l.curr].rhythm)
    && l.len == |cat.tracks[l.curr].melody|
  }

  // ---- One iteration ----

  /** Takes the polled id over, unless it is the sentinel. The length is not reset. */
  function Consume(cat: Catalogue, l: Locals, poll: nat): Locals {
    if poll == cat.maxTracks then l else Locals(0, 0, poll, None, None, l.len)
  }

  ghost predicate Consumed(cat: Catalogue, c: Locals) {
    || LocalsOk(cat, c)
    || c == Locals(0, 0, c.curr, None, None, c.len)
  }

  /** The rest of the iteration: the new locals and the pitches sent to the speaker. */
  function Advance(cat: Catalogue, c: Locals): (Locals, seq<uint16>)
    requires RhythmCoversMelody(cat) && Consumed(cat, c)
  {
    if c.curr >= cat.maxTracks then (c, [0])
    else if c.note == 0 && (c.melody == None || c.rhythm == None) then
      match GetTrack(cat, c.curr)
      case None => (c.(melody := None, rhythm := None, curr := cat.maxTracks), [0])
      case Some(t) => PlayNote(cat, c.(melody := Some(t.melody), rhythm := Some(t.rhythm), len := |t.melody|))
    else PlayNote(cat, c)
  }

  function PlayNote(cat: Catalogue, c: Locals): (Locals, seq<uint16>)
    requires RhythmCoversMelody(cat) && Loaded(cat, c)
  {
    if c.note >= c.len then (c.(curr := cat.maxTracks), [0])
    else
      var (l, calls) := CountTick(cat, c);
      (Finish(cat, l), calls)
  }

  /** A note starts at tick 0, and when its length is over gives way to the next. */
  function CountTick(cat: Catalogue, c: Locals): (Locals, seq<uint16>)
    requires RhythmCoversMelody(cat) && Loaded(cat, c) && c.note < c.len
  {
    var start := if c.tick == 0 then [c.melody.value[c.note]] else [];
    if c.tick >= c.rhythm.value[c.note] then (c.(tick := 0, note := c.note + 1), start + [0])
    else (c.(tick := c.tick + 1), start)
  }

  /** A track whose notes are used up is forgotten. */
  function Finish(cat: Catalogue, l: Locals): Locals {
    if l.note >= l.len then Locals(l.tick, 0, cat.maxTracks, None, None, 0) else l
  }

  function Tick(cat: Catalogue, l: Locals, poll: nat): (r: (Locals, seq<uint16>))
    requires RhythmCoversMelody(cat) && LocalsOk(cat, l)
    ensures LocalsOk(cat, r.0)
  {
    Advance(cat, Consume(cat, l, poll))
  }

  // ---- Whole runs ----

  /** The locals after a run of polls. */
  function After(cat: Catalogue, l: Locals, polls: seq<nat>): (r: Locals)
    requires RhythmCoversMelody(cat) && LocalsOk(cat, l)
    ensures LocalsOk(cat, r)
    decreases polls
  {
    if polls == [] then l
    else Tick(cat, After(cat, l, polls[..|polls| - 1]), polls[|polls| - 1]).0
  }

  /** All pitches sent to the speaker during a run of polls. */
  function AllCalls(cat: Catalogue, l: Locals, polls: seq<nat>): seq<uint16>
    requires RhythmCoversMelody(cat) && LocalsOk(cat, l)
    decreases polls
  {
    if polls == [] then []
    else
      var init := polls[..|polls| - 1];
      AllCalls(cat, l, init) + Tick(cat, After(cat, l, init), polls[|polls| - 1]).1
  }

  // ---- The rendering, stated without the machine ----

  /** A note sounds for its length and is followed by one silent tick. */
  function Note(pitch: uint16, length: nat): seq<uint16> {
    seq(length, _ => pitch) + [0]
  }

  function Score(t: Track, i: nat): seq<uint16>
    requires |t.melody| <= |t.rhythm|
    decreases |t.melody| - i
  {
    if i >= |t.melody| then [] else Note(t.melody[i], t.rhythm[i]) + Score(t, i + 1)
  }

  /** What a consumed id sounds like; an id without tables is silence. */
  function Sound(cat: Catalogue, id: nat): seq<uint16>
    requires RhythmCoversMelody(cat)
  {
    if id < cat.maxTracks && id in cat.tracks then Score(cat.tracks[id], 0) else []
  }

  /** Index of the last poll that found a request, or -1. */
  function LastRequest(cat: Catalogue, polls: seq<nat>): (j: int)
    ensures -1 <= j < |polls|
    ensures 0 <= j ==> polls[j] != cat.maxTracks
    ensures forall i | j < i < |polls| :: polls[i] == cat.maxTracks
  {
    if polls == [] then -1
    else if polls[|polls| - 1] != cat.maxTracks then |polls| - 1
    else LastRequest(cat, polls[..|polls| - 1])
  }

  /** The pitch held after a run of polls: the rendering of the last request at its age,
      or silence once it is over. */
  function HeldPitch(cat: Catalogue, polls: seq<nat>): uint16
    requires RhythmCoversMelody(cat)
  {
    var j := LastRequest(cat, polls);
    if j < 0 then 0
    else
      var s, age := Sound(cat, polls[j]), |polls| - 1 - j;
      if age < |s| then s[age] else 0
  }

  /** What is still to be heard after a run of polls if nothing more is requested. */
  function Rest(cat: Catalogue, polls: seq<nat>): seq<uint16>
    requires RhythmCoversMelody(cat)
  {
    var j := LastRequest(cat, polls);
    if j < 0 then []
    else
      var s, age := Sound(cat, polls[j]), |polls| - j;
      if age <= |s| then s[age..] else []
  }

  // ---- The machine renders ----

  /** What the machine would still play from its locals. */
  ghost function Remaining(cat: Catalogue, l: Locals): seq<uint16>
    requires RhythmCoversMelody(cat) && LocalsOk(cat, l)
  {
    if !Busy(cat, l) then []
    else Score(cat.tracks[l.curr], l.note)[l.tick..]
  }

  /** The pitch in force fits the locals: silence between notes, the current note inside one. */
  ghost predicate HeldOk(cat: Catalogue, l: Locals, held: uint16)
    requires LocalsOk(cat, l)
  {
    if Busy(cat, l) && l.tick > 0 then held == l.melody.value[l.note] else held == 0
  }

  function Head(s: seq<uint16>): uint16 {
    if s == [] then 0 else s[0]
  }

  function Tail(s: seq<uint16>): seq<uint16> {
    if s == [] then [] else s[1..]
  }

  /** One iteration plays the head of what is due and leaves its tail. What is due is the
      rendering of a consumed id, or else what remained. */
  lemma TickRenders(cat: Catalogue, l: Locals, held: uint16, poll: nat)
    requires RhythmCoversMelody(cat) && LocalsOk(cat, l) && HeldOk(cat, l, held)
    ensures var (m, calls) := Tick(cat, l, poll);
            var due := if poll == cat.maxTracks then Remaining(cat, l) else Sound(cat, poll);
            && Speaker.LastPitch(held, calls) == Head(due)
            && HeldOk(cat, m, Head(due))
            && Remaining(cat, m) == Tail(due)
  {
    var c := Consume(cat, l, poll);
    if c.curr < cat.maxTracks && c.curr in cat.tracks {
      var t := cat.tracks[c.curr];
      var d := if c.melody == None then
        c.(melody := Some(t.melody), rhythm := Some(t.rhythm), len := |t.melody|) else c;
      if d.note < d.len {
        NoteRenders(cat, d, held);
      }
    }
  }

  lemma NoteRenders(cat: Catalogue, d: Locals, held: uint16)
    requires RhythmCoversMelody(cat) && Busy(cat, d) && LocalsOk(cat, d)
    requires d.tick > 0 ==> held == d.melody.value[d.note]
    ensures var (m, calls) := PlayNote(cat, d);
            var due := Score(cat.tracks[d.curr], d.note)[d.tick..];
            && LocalsOk(cat, m)
            && due != []
            && Speaker.LastPitch(held, calls) == due[0]
            && HeldOk(cat, m, due[0])
            && Remaining(cat, m) == due[1..]
  {
    var t, i := cat.tracks[d.curr], d.note;
    var score := Score(t, i);
    var note := Note(t.melody[i], t.rhythm[i]);
    assert score == note + Score(t, i + 1);
    assert |note| - 1 == t.rhythm[i];
    assert score[d.tick..][1..] == score[d.tick + 1..];
    if d.tick == t.rhythm[i] {
      assert score[d.tick + 1..] == Score(t, i + 1);
      assert Score(t, i + 1)[0..] == Score(t, i + 1);
    }
  }

  /** Whole-run refinement: for every sequence of polls, the pitch in force after the run
      is the rendered one, and what remains to be played is what the rendering says. */
  lemma {:induction false} RunRenders(cat: Catalogue, polls: seq<nat>)
    requires RhythmCoversMelody(cat)
    ensures var l := After(cat, Idle(cat), polls);
            && Speaker.LastPitch(0, AllCalls(cat, Idle(cat), polls)) == HeldPitch(cat, polls)
            && Remaining(cat, l) == Rest(cat, polls)
            && HeldOk(cat, l, HeldPitch(cat, polls))
    decreases polls
  {
    if polls == [] {
    } else {
      RunRenders(cat, polls[..|polls| - 1]);
      RunRendersOn(cat, polls);
    }
  }

  lemma RunRendersOn(cat: Catalogue, polls: seq<nat>)
    requires RhythmCoversMelody(cat) && polls != []
    requires var init := polls[..|polls| - 1];
             var l, held := After(cat, Idle(cat), init), HeldPitch(cat, init);
             && Speaker.LastPitch(0, AllCalls(cat, Idle(cat), init)) == held
             && Remaining(cat, l) == Rest(cat, init)
             && HeldOk(cat, l, held)
    ensures var l := After(cat, Idle(cat), polls);
            && Speaker.LastPitch(0, AllCalls(cat, Idle(cat), polls)) == HeldPitch(cat, polls)
            && Remaining(cat, l) == Rest(cat, polls)
            && HeldOk(cat, l, HeldPitch(cat, polls))
  {
    var init, poll := polls[..|polls| - 1], polls[|polls| - 1];
    var l, calls := After(cat, Idle(cat), init), AllCalls(cat, Idle(cat), init);
    RunUnfolds(cat, polls);
    TickRenders(cat, l, HeldPitch(cat, init), poll);
    LastPitchAppend(0, calls, Tick(cat, l, poll).1);
  }

  /** How machine and rendering move on with the last poll. */
  lemma RunUnfolds(cat: Catalogue, polls: seq<nat>)
    requires RhythmCoversMelody(cat) && polls != []
    ensures var init, poll := polls[..|polls| - 1], polls[|polls| - 1];
            var l := After(cat, Idle(cat), init);
            var due := if poll == cat.maxTracks then Rest(cat, init) else Sound(cat, poll);
            && After(cat, Idle(cat), polls) == Tick(cat, l, poll).0
            && AllCalls(cat, Idle(cat), polls) == AllCalls(cat, Idle(cat), init) + Tick(cat, l, poll).1
            && HeldPitch(cat, polls) == Head(due) && Rest(cat, polls) == Tail(due)
  {
    var init, poll := polls[..|polls| - 1], polls[|polls| - 1];
    RestUnfolds(cat, init, poll);
    assert init + [poll] == polls;
  }

  /** One more poll: how the locals and the pitch in force of a run move on. */
  lemma RunExtends(cat: Catalogue, polls: seq<nat>, poll: nat)
    requires RhythmCoversMelody(cat)
    ensures var (l, calls) := Tick(cat, After(cat, Idle(cat), polls), poll);
            && After(cat, Idle(cat), polls + [poll]) == l
            && HeldPitch(cat, polls + [poll]) == Speaker.LastPitch(HeldPitch(cat, polls), calls)
  {
    assert (polls + [poll])[..|polls|] == polls;
    RunRenders(cat, polls);
    TickRenders(cat, After(cat, Idle(cat), polls), HeldPitch(cat, polls), poll);
    RestUnfolds(cat, polls, poll);
  }

  lemma RestUnfolds(cat: Catalogue, init: seq<nat>, poll: nat)
    requires RhythmCoversMelody(cat)
    ensures var due := if poll == cat.maxTracks then Rest(cat, init) else Sound(cat, poll);
            HeldPitch(cat, init + [poll]) == Head(due) && Rest(cat, init + [poll]) == Tail(due)
  {
    assert (init + [poll])[..|init|] == init;
  }

  lemma LastPitchAppend(held: uint16, a: seq<uint16>, b: seq<uint16>)
    ensures Speaker.LastPitch(held, a + b) == Speaker.LastPitch(Speaker.LastPitch(held, a), b)
  {
  }
}
