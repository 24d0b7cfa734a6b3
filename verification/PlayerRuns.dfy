/** What follows for whole runs of the player: preemption, playing time, and the order of
    the register writes it causes. */
module PlayerRuns {
  import opened Common
  import opened Music
  import opened Period
  import opened Player
  import Speaker

  // ---- Preemption forgets the past ----

  /** Idle players differ only in stale locals that no iteration reads. */
  ghost predicate Alike(cat: Catalogue, l: Locals, m: Locals) {
    l == m || (!Busy(cat, l) && !Busy(cat, m))
  }

  lemma TickAlike(cat: Catalogue, l: Locals, m: Locals, poll: nat)
    requires RhythmCoversMelody(cat) && LocalsOk(cat, l) && LocalsOk(cat, m)
    requires Alike(cat, l, m) || poll != cat.maxTracks
    ensures Tick(cat, l, poll).1 == Tick(cat, m, poll).1
    ensures Alike(cat, Tick(cat, l, poll).0, Tick(cat, m, poll).0)
  {
  }

  /** Consuming any request from any player state sends the same pitches from then on as
      consuming it from idle, under every later schedule. */
  lemma {:induction false} PreemptionForgets(cat: Catalogue, l: Locals, id: nat, later: seq<nat>)
    requires RhythmCoversMelody(cat) && LocalsOk(cat, l) && id != cat.maxTracks
    ensures AllCalls(cat, l, [id] + later) == AllCalls(cat, Idle(cat), [id] + later)
    ensures Alike(cat, After(cat, l, [id] + later), After(cat, Idle(cat), [id] + later))
    decreases later
  {
    var polls := [id] + later;
    if later == [] {
      assert polls[..0] == [];
      TickAlike(cat, l, Idle(cat), id);
    } else {
      var init := later[..|later| - 1];
      assert polls[..|polls| - 1] == [id] + init;
      PreemptionForgets(cat, l, id, init);
      TickAlike(cat, After(cat, l, [id] + init), After(cat, Idle(cat), [id] + init), later[|later| - 1]);
    }
  }

  /** It matters that the id is not the sentinel: after any run of polls, one more poll that
      finds the sentinel sends the next pitch that was due anyway and leaves the rest due;
      the track goes on, or ends because nothing of it is left. */
  lemma SentinelInterruptsNothing(cat: Catalogue, polls: seq<nat>)
    requires RhythmCoversMelody(cat)
    ensures var more := polls + [cat.maxTracks];
            var l, m := After(cat, Idle(cat), polls), After(cat, Idle(cat), more);
            && Speaker.LastPitch(0, AllCalls(cat, Idle(cat), more)) == Head(Remaining(cat, l))
            && Remaining(cat, m) == Tail(Remaining(cat, l))
            && (Busy(cat, m) <==> |Remaining(cat, l)| > 1)
            && (Busy(cat, m) ==> m.curr == l.curr && m.melody == l.melody && m.rhythm == l.rhythm)
  {
    RunRenders(cat, polls);
    RunRenders(cat, polls + [cat.maxTracks]);
    RestUnfolds(cat, polls, cat.maxTracks);
    RunExtends(cat, polls, cat.maxTracks);
    TicksLeftIsRemaining(cat, After(cat, Idle(cat), polls + [cat.maxTracks]));
  }

  // ---- Exact playing time ----

  /** The sum of (length + 1) over the notes from the i-th on. */
  function Ticks(t: Track, i: nat): nat
    requires |t.melody| <= |t.rhythm|
    decreases |t.melody| - i
  {
    if i >= |t.melody| then 0 else t.rhythm[i] as int + 1 + Ticks(t, i + 1)
  }

  lemma {:induction false} ScoreLength(t: Track, i: nat)
    requires |t.melody| <= |t.rhythm|
    ensures |Score(t, i)| == Ticks(t, i)
    decreases |t.melody| - i
  {
    if i >= |t.melody| {
    } else {
      ScoreLength(t, i + 1);
    }
  }

  /** Ticks until the player is idle again. */
  ghost function TicksLeft(cat: Catalogue, l: Locals): int
    requires RhythmCoversMelody(cat) && LocalsOk(cat, l)
  {
    if Busy(cat, l) then Ticks(cat.tracks[l.curr], l.note) - l.tick else 0
  }

  lemma TicksLeftIsRemaining(cat: Catalogue, l: Locals)
    requires RhythmCoversMelody(cat) && LocalsOk(cat, l)
    ensures TicksLeft(cat, l) == |Remaining(cat, l)|
    ensures Busy(cat, l) <==> TicksLeft(cat, l) > 0
  {
    if Busy(cat, l) {
      ScoreLength(cat.tracks[l.curr], l.note);
    }
  }

  /** Every iteration without a request takes one tick off the playing time that is left. */
  lemma TickCountsDown(cat: Catalogue, l: Locals)
    requires RhythmCoversMelody(cat) && LocalsOk(cat, l) && Busy(cat, l)
    ensures TicksLeft(cat, Tick(cat, l, cat.maxTracks).0) == TicksLeft(cat, l) - 1
  {
    var held := if l.tick > 0 then l.melody.value[l.note] else 0;
    TickRenders(cat, l, held, cat.maxTracks);
    TicksLeftIsRemaining(cat, l);
    TicksLeftIsRemaining(cat, Tick(cat, l, cat.maxTracks).0);
  }

  /** Polls that find one request and then nothing for n iterations. */
  function Uninterrupted(cat: Catalogue, id: nat, n: nat): seq<nat> {
    [id] + seq(n, _ => cat.maxTracks)
  }

  /** An uninterrupted track keeps the player busy for exactly the sum of (length + 1)
      iterations, counted from the one that consumes it, whatever played before. */
  lemma {:induction false} ExactPlayingTime(cat: Catalogue, l: Locals, id: nat, n: nat)
    requires RhythmCoversMelody(cat) && LocalsOk(cat, l) && id < cat.maxTracks && id in cat.tracks
    ensures Busy(cat, After(cat, l, Uninterrupted(cat, id, n))) <==> 1 + n < Ticks(cat.tracks[id], 0)
    ensures TicksLeft(cat, After(cat, l, Uninterrupted(cat, id, n))) ==
            if 1 + n < Ticks(cat.tracks[id], 0) then Ticks(cat.tracks[id], 0) - 1 - n else 0
    decreases n
  {
    var polls := Uninterrupted(cat, id, n);
    if n == 0 {
      assert polls[..0] == [] && polls[0] == id;
      var held := if Busy(cat, l) && l.tick > 0 then l.melody.value[l.note] else 0;
      TickRenders(cat, l, held, id);
      ScoreLength(cat.tracks[id], 0);
    } else {
      assert polls[..n] == Uninterrupted(cat, id, n - 1);
      ExactPlayingTime(cat, l, id, n - 1);
      var m := After(cat, l, polls[..n]);
      TicksLeftIsRemaining(cat, m);
      if Busy(cat, m) { TickCountsDown(cat, m); }
    }
    TicksLeftIsRemaining(cat, After(cat, l, polls));
  }

  /** For a shipped track: the boot tune plays for 7529 ticks. */
  lemma {:induction false} BootTuneTicks(i: nat)
    requires i <= 29
    ensures |ODE_TO_JOY.melody| == |ODE_TO_JOY.rhythm| == 29
    ensures Ticks(ODE_TO_JOY, i) == 251 * (29 - i) + if i <= 24 then 250 else 0
    decreases 29 - i
  {
    OdeToJoyLengths();
    if i == 29 {
    } else {
      BootTuneTicks(i + 1);
      OdeToJoyRhythmAt(i);
    }
  }

  lemma OdeToJoyRhythmAt(i: nat)
    requires i < 29
    ensures |ODE_TO_JOY.rhythm| == 29 && ODE_TO_JOY.rhythm[i] == if i == 24 then 500 else 250
  {
  }

  /** The first pitch, in Hz, and the playing time, in ticks, of each shipped track, in the
      order of their ids. */
  const FIRST_PITCHES: seq<nat> :=
    [262, 392, 2000, 131, 262, 131, 988, 980, 1800, 2500, 2500, 2500, 2000, 220]
  const PLAYING_TIMES: seq<nat> :=
    [2408, 231, 2008, 154, 231, 501, 7529, 123, 41, 901, 151, 1655, 101, 308]

  lemma ScaleTime()
    ensures Ticks(SCALE, 0) == 2408
  {
    assert Ticks(SCALE, 8) == 0 && Ticks(SCALE, 7) == 301 && Ticks(SCALE, 6) == 602;
    assert Ticks(SCALE, 5) == 903 && Ticks(SCALE, 4) == 1204 && Ticks(SCALE, 3) == 1505;
    assert Ticks(SCALE, 2) == 1806 && Ticks(SCALE, 1) == 2107;
  }

  lemma Alarm1Time()
    ensures Ticks(ALARM1, 0) == 231
  {
    assert Ticks(ALARM1, 6) == 0 && Ticks(ALARM1, 5) == 11 && Ticks(ALARM1, 4) == 77;
    assert Ticks(ALARM1, 3) == 88 && Ticks(ALARM1, 2) == 154 && Ticks(ALARM1, 1) == 165;
  }

  lemma Alarm2Time()
    ensures Ticks(ALARM2, 0) == 2008
  {
    assert Ticks(ALARM2, 8) == 0 && Ticks(ALARM2, 7) == 301 && Ticks(ALARM2, 6) == 602;
    assert Ticks(ALARM2, 5) == 703 && Ticks(ALARM2, 4) == 1004 && Ticks(ALARM2, 3) == 1305;
    assert Ticks(ALARM2, 2) == 1406 && Ticks(ALARM2, 1) == 1707;
  }

  lemma Alert1Time()
    ensures Ticks(ALERT1, 0) == 154
  {
    assert Ticks(ALERT1, 4) == 0 && Ticks(ALERT1, 3) == 11 && Ticks(ALERT1, 2) == 77;
    assert Ticks(ALERT1, 1) == 88;
  }

  lemma Alert2Time()
    ensures Ticks(ALERT2, 0) == 231
  {
    assert Ticks(ALERT2, 6) == 0 && Ticks(ALERT2, 5) == 11 && Ticks(ALERT2, 4) == 77;
    assert Ticks(ALERT2, 3) == 88 && Ticks(ALERT2, 2) == 154 && Ticks(ALERT2, 1) == 165;
  }

  lemma DockedTime()
    ensures Ticks(DOCKED, 0) == 123
  {
    assert Ticks(DOCKED, 3) == 0 && Ticks(DOCKED, 2) == 41 && Ticks(DOCKED, 1) == 82;
  }

  lemma QuickThreeTime()
    ensures Ticks(QUICK_THREE, 0) == 1655
  {
    assert Ticks(QUICK_THREE, 5) == 0 && Ticks(QUICK_THREE, 4) == 151 && Ticks(QUICK_THREE, 3) == 752;
    assert Ticks(QUICK_THREE, 2) == 903 && Ticks(QUICK_THREE, 1) == 1504;
  }

  lemma NovaTime()
    ensures Ticks(NOVA, 0) == 308
  {
    assert Ticks(NOVA, 8) == 0 && Ticks(NOVA, 7) == 11 && Ticks(NOVA, 6) == 77;
    assert Ticks(NOVA, 5) == 88 && Ticks(NOVA, 4) == 154 && Ticks(NOVA, 3) == 165;
    assert Ticks(NOVA, 2) == 231 && Ticks(NOVA, 1) == 242;
  }

  lemma ShippedTimes(id: nat)
    requires id < MAX_TRACKS && id != 6
    ensures |ShippedTrack(id).melody| == |ShippedTrack(id).rhythm| > 0
    ensures ShippedTrack(id).melody[0] as nat == FIRST_PITCHES[id]
    ensures Ticks(ShippedTrack(id), 0) == PLAYING_TIMES[id]
  {
    match id
    case 0 => ScaleTime();
    case 1 => Alarm1Time();
    case 2 => Alarm2Time();
    case 3 => Alert1Time();
    case 4 => Alert2Time();
    case 5 => assert Ticks(BAD_INPUT, 0) == 501;
    case 7 => DockedTime();
    case 8 => assert Ticks(KEY_PRESS, 0) == 41;
    case 9 => assert Ticks(LONG, 0) == 901;
    case 10 => assert Ticks(QUICK, 0) == 151;
    case 11 => QuickThreeTime();
    case 12 => assert Ticks(SCAN, 0) == 101;
    case _ => NovaTime();
  }

  /** What each shipped id plays, told apart by first pitch and playing time: no two ids
      agree in both. */
  lemma ShippedTracksByEar(id: nat)
    requires id < MAX_TRACKS
    ensures id in SHIPPED.tracks && |SHIPPED.tracks[id].melody| == |SHIPPED.tracks[id].rhythm|
    ensures FirstPitch(SHIPPED, id) as nat == FIRST_PITCHES[id]
    ensures Ticks(SHIPPED.tracks[id], 0) == PLAYING_TIMES[id]
    ensures forall other: nat | other < MAX_TRACKS && other != id ::
              FIRST_PITCHES[other] != FIRST_PITCHES[id] || PLAYING_TIMES[other] != PLAYING_TIMES[id]
  {
    if id == BOOT_TUNE {
      BootTuneTicks(0);
    } else {
      ShippedTimes(id);
    }
  }

  const BOOT_TUNE: nat := 6

  /** Asked for by its id and left alone, the boot tune starts with 988 Hz and is over after
      7529 ticks, not earlier. */
  lemma BootTuneById(l: Locals, n: nat)
    requires LocalsOk(SHIPPED, l)
    ensures RhythmCoversMelody(SHIPPED)
    ensures Busy(SHIPPED, After(SHIPPED, l, Uninterrupted(SHIPPED, BOOT_TUNE, n))) <==> 1 + n < 7529
    ensures AllCalls(SHIPPED, l, Uninterrupted(SHIPPED, BOOT_TUNE, 0)) == [988]
  {
    ShippedTablesMatch();
    ShippedTracksByEar(BOOT_TUNE);
    ExactPlayingTime(SHIPPED, l, BOOT_TUNE, n);
    FirstCall(SHIPPED, l, BOOT_TUNE);
  }

  lemma FirstCall(cat: Catalogue, l: Locals, id: nat)
    requires RhythmCoversMelody(cat) && LocalsOk(cat, l) && id < cat.maxTracks && id in cat.tracks
    requires cat.tracks[id].melody != [] && cat.tracks[id].rhythm[0] > 0
    ensures AllCalls(cat, l, Uninterrupted(cat, id, 0)) == [cat.tracks[id].melody[0]]
  {
    var polls := Uninterrupted(cat, id, 0);
    assert polls == [id] && polls[..0] == [];
  }

  // ---- Register writes during a run ----

  /** The first pitch a consumed id sends. */
  function FirstPitch(cat: Catalogue, id: nat): uint16 {
    if id < cat.maxTracks && id in cat.tracks && cat.tracks[id].melody != [] then cat.tracks[id].melody[0] else 0
  }

  /** The pitch in force when the i-th poll happens. */
  function HeldBefore(cat: Catalogue, polls: seq<nat>, i: nat): uint16
    requires RhythmCoversMelody(cat) && i <= |polls|
  {
    HeldPitch(cat, polls[..i])
  }

  /** Every preemption goes to a pitch whose period still holds the duty in force. */
  ghost predicate SafePreemptions(q: Quotient, cat: Catalogue, polls: seq<nat>)
    requires RhythmCoversMelody(cat)
  {
    forall i | 0 <= i < |polls| :: SafeAt(q, cat, polls, i)
  }

  ghost predicate SafeAt(q: Quotient, cat: Catalogue, polls: seq<nat>, i: nat)
    requires RhythmCoversMelody(cat) && i < |polls|
  {
    polls[i] == cat.maxTracks || Speaker.SafeSwitch(q, HeldBefore(cat, polls, i), FirstPitch(cat, polls[i]))
  }

  /** An iteration sends at most a pitch and a silence, and a pitch without a request only
      out of silence. */
  lemma TickSends(cat: Catalogue, l: Locals, held: uint16, poll: nat)
    requires RhythmCoversMelody(cat) && LocalsOk(cat, l) && HeldOk(cat, l, held)
    ensures var calls := Tick(cat, l, poll).1;
            && |calls| <= 2 && (|calls| == 2 ==> calls[1] == 0)
            && (poll != cat.maxTracks ==> |calls| > 0 && calls[0] == FirstPitch(cat, poll))
            && (poll == cat.maxTracks && |calls| > 0 ==> held == 0 || calls[0] == 0)
  {
  }

  lemma FewCallsSafeIff(q: Quotient, held: uint16, calls: seq<uint16>)
    requires |calls| <= 2 && (|calls| == 2 ==> calls[1] == 0)
    ensures Speaker.SafeCalls(q, held, calls) <==> calls == [] || Speaker.SafeSwitch(q, held, calls[0])
  {
    if |calls| > 0 {
      var rest: seq<uint16> := [0];
      assert rest[1..] == [] && Speaker.SafeCalls(q, 0, []);
      assert Speaker.SafeCalls(q, calls[0], rest);
      assert calls[1..] == if |calls| == 2 then rest else [];
    }
  }

  lemma TickSafeIff(q: Quotient, cat: Catalogue, l: Locals, held: uint16, poll: nat)
    requires RhythmCoversMelody(cat) && LocalsOk(cat, l) && HeldOk(cat, l, held)
    ensures Speaker.SafeCalls(q, held, Tick(cat, l, poll).1) <==>
            poll == cat.maxTracks || Speaker.SafeSwitch(q, held, FirstPitch(cat, poll))
  {
    TickSends(cat, l, held, poll);
    FewCallsSafeIff(q, held, Tick(cat, l, poll).1);
  }

  lemma {:induction false} SafeCallsAppend(q: Quotient, held: uint16, a: seq<uint16>, b: seq<uint16>)
    ensures Speaker.SafeCalls(q, held, a + b) <==>
            Speaker.SafeCalls(q, held, a) && Speaker.SafeCalls(q, Speaker.LastPitch(held, a), b)
    decreases a
  {
    if a == [] {
      assert a + b == b;
    } else {
      assert (a + b)[1..] == a[1..] + b;
      SafeCallsAppend(q, a[0], a[1..], b);
    }
  }

  /** For every schedule: the duty time stays inside the period at every register write of
      the run if and only if every preemption is safe. */
  lemma RunWritesSafeIff(q: Quotient, cat: Catalogue, s: Speaker.Speaker, polls: seq<nat>)
    requires RhythmCoversMelody(cat) && s.inited && Speaker.Synced(q, s) && s.cache == 0
    ensures Speaker.AllSafe(Speaker.WritesOfAll(q, s, AllCalls(cat, Idle(cat), polls))) <==>
            SafePreemptions(q, cat, polls)
  {
    Speaker.WritesSafeIff(q, s, AllCalls(cat, Idle(cat), polls));
    RunCallsSafeIff(q, cat, polls);
  }

  lemma {:induction false} RunCallsSafeIff(q: Quotient, cat: Catalogue, polls: seq<nat>)
    requires RhythmCoversMelody(cat)
    ensures Speaker.SafeCalls(q, 0, AllCalls(cat, Idle(cat), polls)) <==> SafePreemptions(q, cat, polls)
    decreases polls
  {
    if polls == [] {
    } else {
      var n := |polls| - 1;
      var init, poll := polls[..n], polls[n];
      RunCallsSafeIff(q, cat, init);
      RunRenders(cat, init);
      var l := After(cat, Idle(cat), init);
      TickSafeIff(q, cat, l, HeldPitch(cat, init), poll);
      SafeCallsAppend(q, 0, AllCalls(cat, Idle(cat), init), Tick(cat, l, poll).1);
      SafePreemptionsUnfold(q, cat, polls);
    }
  }

  lemma SafePreemptionsUnfold(q: Quotient, cat: Catalogue, polls: seq<nat>)
    requires RhythmCoversMelody(cat) && polls != []
    ensures var n := |polls| - 1;
            SafePreemptions(q, cat, polls) <==>
            SafePreemptions(q, cat, polls[..n]) && SafeAt(q, cat, polls, n)
  {
    var n := |polls| - 1;
    var init := polls[..n];
    forall i | 0 <= i < n
      ensures SafeAt(q, cat, init, i) <==> SafeAt(q, cat, polls, i)
    {
      assert init[..i] == polls[..i];
    }
  }

  /** The same for one more poll of a run whose pitch in force the speaker holds. */
  lemma PollWritesSafeIff(q: Quotient, cat: Catalogue, s: Speaker.Speaker, polls: seq<nat>, poll: nat)
    requires RhythmCoversMelody(cat) && s.inited && Speaker.Synced(q, s) && s.cache == HeldPitch(cat, polls)
    requires SafePreemptions(q, cat, polls)
    ensures Speaker.AllSafe(Speaker.WritesOfAll(q, s, Tick(cat, After(cat, Idle(cat), polls), poll).1)) <==>
            SafePreemptions(q, cat, polls + [poll])
  {
    var l := After(cat, Idle(cat), polls);
    RunRenders(cat, polls);
    TickSafeIff(q, cat, l, s.cache, poll);
    Speaker.WritesSafeIff(q, s, Tick(cat, l, poll).1);
    assert (polls + [poll])[..|polls|] == polls;
    SafePreemptionsUnfold(q, cat, polls + [poll]);
  }

  /** A track played from silence to its end, or any part of it, is always safe. */
  lemma UninterruptedIsSafe(q: Quotient, cat: Catalogue, s: Speaker.Speaker, id: nat, n: nat)
    requires RhythmCoversMelody(cat) && s.inited && Speaker.Synced(q, s) && s.cache == 0
    ensures Speaker.AllSafe(Speaker.WritesOfAll(q, s, AllCalls(cat, Idle(cat), Uninterrupted(cat, id, n))))
  {
    var polls := Uninterrupted(cat, id, n);
    RunWritesSafeIff(q, cat, s, polls);
    assert polls[..0] == [];
    assert HeldBefore(cat, polls, 0) == 0;
  }

  /** A preemption need not be: a shipped track that interrupts another one can write a
      period below the duty time in force. */
  lemma ShippedPreemptionIsUnsafe(q: Quotient)
    ensures RhythmCoversMelody(SHIPPED)
    ensures !SafePreemptions(q, SHIPPED, [5, 9])
  {
    ShippedTablesMatch();
    var polls := [5, 9];
    assert ShippedTrack(5) == BAD_INPUT && ShippedTrack(9) == LONG;
    assert polls[..1] == [5] && [5][..0] == [];
    assert LastRequest(SHIPPED, [5]) == 0;
    assert Score(BAD_INPUT, 0)[0] == NOTE_C3;
    assert HeldBefore(SHIPPED, polls, 1) == NOTE_C3;
    assert NS_PER_SECOND / 131 == 7_633_587 && NS_PER_SECOND / 2500 == 400_000;
    assert !Speaker.SafeSwitch(q, NOTE_C3, NOTE_2000_HZ);
    assert FirstPitch(SHIPPED, polls[1]) == NOTE_2000_HZ;
    assert !SafeAt(q, SHIPPED, polls, 1);
  }
}
