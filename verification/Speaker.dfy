/** The speaker driver: the PWM registers behind a cached pitch, and the volume lines
    (Speaker.c). Values first, then the driver that updates its fields in place. */
module Speaker {
  import opened Common
  import opened Period

  datatype Regs = Regs(period: nat, duty: nat, enable: nat)

  /** `cache` is the static CurrentFreq; `chip`, `line1` and `line2` say which GPIO
      handles are held. */
  datatype Speaker = Speaker(inited: bool, cache: uint16, regs: Regs, chip: bool, line1: bool, line2: bool)

  datatype Error = NoError | SysfsError | StateError | OpenChipError | GetLineError

  /** Outcomes of the calls Speaker_Init makes into the system. An export refused with
      EBUSY counts as ok. */
  datatype Environment = Environment(
    dirOpens: bool, exportOk: bool, chipOpens: bool,
    line1Found: bool, line1Granted: bool, line2Found: bool, line2Granted: bool)

  // ---- What a pitch means at the hardware ----

  /** The registers make the sound of pitch f. The period is free while silent. */
  ghost predicate Sounds(q: Quotient, r: Regs, f: uint16) {
    if f == 0 then r.duty == 0 && r.enable == 0
    else r.period == PeriodNs(q, f) && r.duty == r.period / 2 && r.enable == 1
  }

  /** Equal as far as one can hear. */
  predicate SameSound(r: Regs, u: Regs) {
    r.duty == u.duty && r.enable == u.enable && (r.enable == 1 ==> r.period == u.period)
  }

  /** The cache tells the truth about the registers. */
  ghost predicate Synced(q: Quotient, s: Speaker) {
    Sounds(q, s.regs, s.cache)
  }

  // ---- Speaker_PlayPitch ----

  /** One write changes one register. */
  predicate OneRegister(r: Regs, u: Regs) {
    u == r.(period := u.period) || u == r.(duty := u.duty) || u == r.(enable := u.enable)
  }

  /** A write that sets pitch f changes one register; it switches the output on when the rest
      of the pitch is there, and off when its duty time is already 0. */
  ghost predicate OrderlyWrite(q: Quotient, r: Regs, u: Regs, f: uint16) {
    && OneRegister(r, u)
    && (r.enable == 0 && u.enable == 1 ==> Sounds(q, u, f))
    && (r.enable == 1 && u.enable == 0 ==> Sounds(q, u, 0))
  }

  ghost predicate OrderlyWrites(q: Quotient, r: Regs, w: seq<Regs>, f: uint16) {
    forall i | 0 <= i < |w| :: OrderlyWrite(q, if i == 0 then r else w[i - 1], w[i], f)
  }

  /** The successive register contents while pitch f is set, one per write. */
  function PitchWrites(q: Quotient, s: Speaker, f: uint16): seq<Regs> {
    if !s.inited || f == s.cache then []
    else if f == 0 then
      [s.regs.(duty := 0), s.regs.(duty := 0, enable := 0)]
    else
      var p := PeriodNs(q, f);
      [s.regs.(period := p), s.regs.(period := p, duty := p / 2), Regs(p, p / 2, 1)]
  }

  function Play(q: Quotient, s: Speaker, f: uint16): Speaker {
    var w := PitchWrites(q, s, f);
    if w == [] then s else s.(regs := w[|w| - 1], cache := f)
  }

  function PlayAll(q: Quotient, s: Speaker, calls: seq<uint16>): Speaker
    decreases calls
  {
    if calls == [] then s else PlayAll(q, Play(q, s, calls[0]), calls[1..])
  }

  function WritesOfAll(q: Quotient, s: Speaker, calls: seq<uint16>): seq<Regs>
    decreases calls
  {
    if calls == [] then [] else PitchWrites(q, s, calls[0]) + WritesOfAll(q, Play(q, s, calls[0]), calls[1..])
  }

  /** The driver without the cache: every call writes. */
  function UncachedPlay(q: Quotient, r: Regs, f: uint16): Regs {
    if f == 0 then r.(duty := 0, enable := 0) else Regs(PeriodNs(q, f), PeriodNs(q, f) / 2, 1)
  }

  function UncachedPlayAll(q: Quotient, r: Regs, calls: seq<uint16>): Regs
    decreases calls
  {
    if calls == [] then r else UncachedPlayAll(q, UncachedPlay(q, r, calls[0]), calls[1..])
  }

  /** The pitch left after some calls, when `held` was set before them. */
  function LastPitch(held: uint16, calls: seq<uint16>): uint16 {
    if calls == [] then held else calls[|calls| - 1]
  }

  lemma {:induction false} LastPitchOfTail(held: uint16, calls: seq<uint16>)
    requires calls != []
    ensures LastPitch(held, calls) == LastPitch(calls[0], calls[1..])
  {
  }

  /** The cached driver refines the uncached one: from a truthful cache, any calls leave
      both sounding the last pitch, and the cache truthful. */
  lemma {:induction false} CacheRefinesUncached(q: Quotient, s: Speaker, r: Regs, calls: seq<uint16>)
    requires s.inited && Synced(q, s) && SameSound(s.regs, r)
    ensures var t := PlayAll(q, s, calls);
            && t.inited && Synced(q, t) && t.cache == LastPitch(s.cache, calls)
            && SameSound(t.regs, UncachedPlayAll(q, r, calls))
            && (t.chip, t.line1, t.line2) == (s.chip, s.line1, s.line2)
    decreases calls
  {
    if calls == [] {
    } else {
      CacheRefinesUncached(q, Play(q, s, calls[0]), UncachedPlay(q, r, calls[0]), calls[1..]);
      LastPitchOfTail(s.cache, calls);
    }
  }

  lemma {:induction false} ClosedSpeakerIgnoresCalls(q: Quotient, s: Speaker, calls: seq<uint16>)
    requires !s.inited
    ensures PlayAll(q, s, calls) == s && WritesOfAll(q, s, calls) == []
  {
    if calls == [] {
    } else {
      ClosedSpeakerIgnoresCalls(q, s, calls[1..]);
    }
  }

  lemma {:induction false} PlayAllKeepsOpen(q: Quotient, s: Speaker, calls: seq<uint16>)
    ensures PlayAll(q, s, calls).inited == s.inited
    decreases calls
  {
    if calls == [] {
    } else {
      PlayAllKeepsOpen(q, Play(q, s, calls[0]), calls[1..]);
    }
  }

  lemma {:induction false} PlayAllAppend(q: Quotient, s: Speaker, a: seq<uint16>, b: seq<uint16>)
    ensures PlayAll(q, s, a + b) == PlayAll(q, PlayAll(q, s, a), b)
    ensures WritesOfAll(q, s, a + b) == WritesOfAll(q, s, a) + WritesOfAll(q, PlayAll(q, s, a), b)
    decreases a
  {
    if a == [] {
      assert a + b == b;
    } else {
      assert (a + b)[1..] == a[1..] + b;
      PlayAllAppend(q, Play(q, s, a[0]), a[1..], b);
    }
  }

  /** One more call at the end of a run. */
  lemma PlayAllSnoc(q: Quotient, s: Speaker, calls: seq<uint16>, f: uint16)
    ensures var t := PlayAll(q, s, calls);
            && PlayAll(q, s, calls + [f]) == Play(q, t, f)
            && WritesOfAll(q, s, calls + [f]) == WritesOfAll(q, s, calls) + PitchWrites(q, t, f)
  {
    PlayAllAppend(q, s, calls, [f]);
    assert [f][1..] == [];
  }

  // ---- Order of the register writes ----

  /** The registers after some writes. */
  function LastWrite(r: Regs, w: seq<Regs>): Regs {
    if w == [] then r else w[|w| - 1]
  }

  lemma {:induction false} LastOfAllWrites(q: Quotient, s: Speaker, calls: seq<uint16>)
    ensures PlayAll(q, s, calls).regs == LastWrite(s.regs, WritesOfAll(q, s, calls))
    decreases calls
  {
    if calls == [] {
    } else {
      LastOfAllWrites(q, Play(q, s, calls[0]), calls[1..]);
    }
  }

  /** The PWM core wants the duty time inside the period after every single write. */
  predicate SafeRegs(r: Regs) {
    r.duty <= r.period
  }

  predicate AllSafe(w: seq<Regs>) {
    forall i | 0 <= i < |w| :: SafeRegs(w[i])
  }

  /** Writing the new period first is harmless unless one sounding pitch replaces another
      whose half period is longer than the new period. */
  predicate SafeSwitch(q: Quotient, a: uint16, b: uint16) {
    a == 0 || b == 0 || a == b || PeriodNs(q, a) / 2 <= PeriodNs(q, b)
  }

  predicate SafeCalls(q: Quotient, held: uint16, calls: seq<uint16>)
    decreases calls
  {
    calls == [] || (SafeSwitch(q, held, calls[0]) && SafeCalls(q, calls[0], calls[1..]))
  }

  /** Setting a pitch writes each register it needs once, unless the pitch is already set or
      the speaker is closed, and in an order in which the output is only ever on with the
      pitch complete, and only switched off in silence. */
  lemma PitchWritesAreOrderly(q: Quotient, s: Speaker, f: uint16)
    ensures |PitchWrites(q, s, f)| == if !s.inited || f == s.cache then 0 else if f == 0 then 2 else 3
    ensures OrderlyWrites(q, s.regs, PitchWrites(q, s, f), f)
    ensures s.inited && f != s.cache ==> Sounds(q, LastWrite(s.regs, PitchWrites(q, s, f)), f)
  {
    var w := PitchWrites(q, s, f);
    if s.inited && f != s.cache {
      assert OrderlyWrite(q, s.regs, w[0], f) && OrderlyWrite(q, w[0], w[1], f);
      assert f != 0 ==> OrderlyWrite(q, w[1], w[2], f);
    }
  }

  /** Calls that repeat the pitch already set write nothing and change nothing. */
  lemma {:induction false} RepeatsWriteNothing(q: Quotient, s: Speaker, calls: seq<uint16>)
    requires forall i | 0 <= i < |calls| :: calls[i] == s.cache
    ensures WritesOfAll(q, s, calls) == [] && PlayAll(q, s, calls) == s
  {
    if calls == [] {
    } else {
      RepeatsWriteNothing(q, s, calls[1..]);
    }
  }

  /** Closing writes two registers, the duty time first. */
  lemma ClosingWritesAreOrderly(q: Quotient, s: Speaker)
    ensures |ClosingWrites(s)| == if s.inited then 2 else 0
    ensures OrderlyWrites(q, s.regs, ClosingWrites(s), 0)
    ensures s.inited ==> Sounds(q, LastWrite(s.regs, ClosingWrites(s)), 0)
    ensures forall i | 0 <= i < |ClosingWrites(s)| :: ClosingWrites(s)[i].period == s.regs.period
  {
    var w := ClosingWrites(s);
    if s.inited {
      assert OrderlyWrite(q, s.regs, w[0], 0) && OrderlyWrite(q, w[0], w[1], 0);
    }
  }

  lemma CompletedCallHalvesDuty(q: Quotient, s: Speaker, f: uint16)
    requires Synced(q, s)
    ensures 2 * Play(q, s, f).regs.duty <= Play(q, s, f).regs.period
  {
    var r := Play(q, s, f).regs;
    assert Sounds(q, r, Play(q, s, f).cache);
  }

  lemma PitchWritesSafeIff(q: Quotient, s: Speaker, f: uint16)
    requires s.inited && Synced(q, s)
    ensures AllSafe(PitchWrites(q, s, f)) <==> SafeSwitch(q, s.cache, f)
  {
    var w := PitchWrites(q, s, f);
    if f != s.cache && f != 0 {
      assert SafeRegs(w[0]) <==> s.regs.duty <= PeriodNs(q, f);
      assert SafeRegs(w[1]) && SafeRegs(w[2]);
    }
  }

  /** A whole run of calls keeps the duty inside the period at every intermediate write
      if and only if every switch of pitch in it is safe. */
  lemma {:induction false} WritesSafeIff(q: Quotient, s: Speaker, calls: seq<uint16>)
    requires s.inited && Synced(q, s)
    ensures AllSafe(WritesOfAll(q, s, calls)) <==> SafeCalls(q, s.cache, calls)
    decreases calls
  {
    if calls == [] {
    } else {
      var t := Play(q, s, calls[0]);
      PitchWritesSafeIff(q, s, calls[0]);
      WritesSafeIff(q, t, calls[1..]);
      AllSafeAppend(PitchWrites(q, s, calls[0]), WritesOfAll(q, t, calls[1..]));
    }
  }

  lemma AllSafeAppend(a: seq<Regs>, b: seq<Regs>)
    ensures AllSafe(a + b) <==> AllSafe(a) && AllSafe(b)
  {
    if AllSafe(a + b) {
      assert forall i | 0 <= i < |a| :: a[i] == (a + b)[i];
      assert forall i | 0 <= i < |b| :: b[i] == (a + b)[|a| + i];
    }
  }

  /** Not every switch is: going from 31 Hz straight to 4978 Hz sets a period shorter than
      the duty time still in force. */
  lemma UnsafeSwitchExists(q: Quotient)
    ensures !SafeSwitch(q, 31, 4978)
  {
    assert NS_PER_SECOND / 31 == 32_258_064 && NS_PER_SECOND / 4978 == 200_883;
  }

  // ---- Speaker_Init and Speaker_DeInit ----

  function OpenPins(s: Speaker, env: Environment): (Speaker, Error) {
    var c := s.(chip := s.chip || env.chipOpens);
    if !c.chip then (c, OpenChipError)
    else
      var l1 := c.(line1 := env.line1Found);
      if !env.line1Found || !env.line1Granted then (l1, GetLineError)
      else
        var l2 := l1.(line2 := env.line2Found);
        (l2, if env.line2Found && env.line2Granted then NoError else GetLineError)
  }

  function Init(s: Speaker, env: Environment): (Speaker, Error) {
    if s.inited then (s, StateError)
    else if !env.dirOpens || !env.exportOk then (s, SysfsError)
    else
      var (t, e) := OpenPins(s, env);
      (t.(inited := e == NoError), e)
  }

  function DeInit(s: Speaker): (Speaker, Error) {
    if !s.inited then (s, StateError)
    else (s.(inited := false, regs := s.regs.(duty := 0, enable := 0),
             chip := false, line1 := false, line2 := false), NoError)
  }

  /** The register contents while the speaker is closed, one per write. */
  function ClosingWrites(s: Speaker): seq<Regs> {
    if s.inited then [s.regs.(duty := 0), s.regs.(duty := 0, enable := 0)] else []
  }

  /** Closing an open speaker leaves what its writes leave, no handle and the cache as it was;
      a closed one reports an error and stays as it is. */
  lemma DeInitOutcome(s: Speaker)
    ensures var (t, e) := DeInit(s);
            && e == (if s.inited then NoError else StateError)
            && !t.inited && t.cache == s.cache && t.regs == LastWrite(s.regs, ClosingWrites(s))
            && (s.inited ==> !t.chip && !t.line1 && !t.line2)
            && (!s.inited ==> t == s)
  {
  }

  /** What closing does to the GPIO handles, in order. */
  datatype PinEvent = DriveLow(line: nat) | Release(line: nat) | CloseChip

  function ClosingEvents(s: Speaker): seq<PinEvent> {
    (if s.line2 then [DriveLow(2), Release(2)] else [])
    + (if s.line1 then [DriveLow(1), Release(1)] else [])
    + (if s.chip then [CloseChip] else [])
  }

  /** What is done to a handle when it is held: a line is driven low and released. */
  predicate Concerns(s: Speaker, event: PinEvent) {
    match event
    case DriveLow(line) => (line == 1 && s.line1) || (line == 2 && s.line2)
    case Release(line) => (line == 1 && s.line1) || (line == 2 && s.line2)
    case CloseChip => s.chip
  }

  /** Closing does to every handle held what it has to, once, and nothing else: the second
      line goes before the first, each is released right after it was driven low, and the
      chip is closed last. */
  lemma ClosingIsOrderly(s: Speaker)
    ensures var e := ClosingEvents(s);
            && (forall event :: event in e <==> Concerns(s, event))
            && (forall i, j | 0 <= i < j < |e| :: e[i] != e[j])
            && (forall i | 0 <= i < |e| && e[i].Release? :: 0 < i && e[i - 1] == DriveLow(e[i].line))
            && (forall i, j | 0 <= i < |e| && 0 <= j < |e| && e[i] == Release(2) && e[j] == Release(1) :: i < j)
            && (forall i | 0 <= i < |e| && e[i].CloseChip? :: i == |e| - 1)
  {
  }

  ghost predicate PinsHeld(s: Speaker) { s.chip && s.line1 && s.line2 }

  ghost predicate PinsReleased(s: Speaker) { !s.chip && !s.line1 && !s.line2 }

  /** Initialisation opens the speaker with all its pins exactly when everything it asks
      for is granted; otherwise it stays as open or closed as it was. The pitch cache and
      the registers are never touched. */
  lemma InitOutcome(s: Speaker, env: Environment)
    ensures var (t, e) := Init(s, env);
            && (e == NoError <==>
                 && !s.inited && env.dirOpens && env.exportOk && (s.chip || env.chipOpens)
                 && env.line1Found && env.line1Granted && env.line2Found && env.line2Granted)
            && t.inited == (s.inited || e == NoError)
            && (e == NoError ==> PinsHeld(t))
            && (t.cache, t.regs) == (s.cache, s.regs)
  {
  }

  /** The environment gets as far as the volume pins. */
  predicate ReachesPins(s: Speaker, env: Environment) {
    !s.inited && env.dirOpens && env.exportOk
  }

  predicate ReachesLine1(s: Speaker, env: Environment) {
    ReachesPins(s, env) && (s.chip || env.chipOpens)
  }

  predicate ReachesLine2(s: Speaker, env: Environment) {
    ReachesLine1(s, env) && env.line1Found && env.line1Granted
  }

  /** Which error a failing initialisation reports, and which handles every initialisation
      leaves: a line that was found is held even if the request for it was refused. */
  lemma InitErrors(s: Speaker, env: Environment)
    ensures var (t, e) := Init(s, env);
            && (e == StateError <==> s.inited)
            && (e == SysfsError <==> !s.inited && !(env.dirOpens && env.exportOk))
            && (e == OpenChipError <==> ReachesPins(s, env) && !s.chip && !env.chipOpens)
            && (e == GetLineError <==>
                  ReachesLine1(s, env) && !(ReachesLine2(s, env) && env.line2Found && env.line2Granted))
            && (t.chip <==> s.chip || (ReachesPins(s, env) && env.chipOpens))
            && (t.line1 <==> if ReachesLine1(s, env) then env.line1Found else s.line1)
            && (t.line2 <==> if ReachesLine2(s, env) then env.line2Found else s.line2)
  {
  }

  /** When a failed initialisation releases what it opened: exactly when it had opened
      nothing, because the sysfs directory, the export or the chip failed. Whatever fails
      later leaves handles held. */
  lemma FailedInitReleasesIff(s: Speaker, env: Environment)
    requires !s.inited && Init(s, env).1 != NoError
    ensures PinsReleased(Init(s, env).0) <==>
            PinsReleased(s) && (!env.dirOpens || !env.exportOk || !env.chipOpens)
  {
  }

  /** The failing case is reached: for instance the chip and the
      first line stay held although the speaker is closed. */
  lemma FailedInitKeepsPins(s: Speaker)
    requires !s.inited && PinsReleased(s)
    ensures exists env :: var (t, e) := Init(s, env); e != NoError && !t.inited && t.chip && t.line1
  {
    var env := Environment(true, true, true, true, true, false, false);
    var (t, e) := Init(s, env);
    assert e != NoError && !t.inited && t.chip && t.line1;
  }

  /** Closing resets the registers but not the cache, so the cache stays truthful exactly
      when the speaker was silent. */
  lemma ClosingKeepsSyncIffSilent(q: Quotient, s: Speaker)
    requires s.inited
    ensures Synced(q, DeInit(s).0) <==> s.cache == 0
  {
    if s.cache != 0 {
      assert PeriodNs(q, s.cache) / 2 > 0;
    }
  }

  /** What a stale cache does after reopening: the first call is heard exactly when it
      asks for a pitch other than the one that was sounding at the close. */
  lemma StaleCacheMutesOnePitch(q: Quotient, s: Speaker, env: Environment, f: uint16)
    requires s.inited && Synced(q, s) && Init(DeInit(s).0, env).1 == NoError
    ensures var t := Play(q, Init(DeInit(s).0, env).0, f);
            Sounds(q, t.regs, f) <==> f == 0 || f != s.cache
  {
  }

  // ---- The driver itself ----

  class SpeakerDevice {
    const q: Quotient
    var inited: bool
    var currentFreq: uint16
    var period: nat
    var duty: nat
    var enable: nat
    var chip: bool
    var line1: bool
    var line2: bool
    /** Every register contents so far, one entry per write. */
    ghost var log: seq<Regs>
    /** Every handle given back so far, and what was done to it before. */
    ghost var pinLog: seq<PinEvent>

    function Registers(): Regs
      reads this
    {
      Regs(period, duty, enable)
    }

    function Value(): Speaker
      reads this
    {
      Speaker(inited, currentFreq, Registers(), chip, line1, line2)
    }

    constructor (q: Quotient, initialPeriod: nat)
      ensures this.q == q && log == [] && pinLog == []
      ensures Value() == Speaker(false, 0, Regs(initialPeriod, 0, 0), false, false, false)
    {
      this.q := q;
      inited, currentFreq := false, 0;
      period, duty, enable := initialPeriod, 0, 0;
      chip, line1, line2 := false, false, false;
      log, pinLog := [], [];
    }

    method WritePeriod(p: nat)
      modifies this`period, this`log
      ensures period == p && log == old(log) + [Regs(p, duty, enable)]
    {
      period := p;
      log := log + [Registers()];
    }

    method WriteDuty(d: nat)
      modifies this`duty, this`log
      ensures duty == d && log == old(log) + [Regs(period, d, enable)]
    {
      duty := d;
      log := log + [Registers()];
    }

    method WriteEnable(e: nat)
      modifies this`enable, this`log
      ensures enable == e && log == old(log) + [Regs(period, duty, e)]
    {
      enable := e;
      log := log + [Registers()];
    }

    /** Sets a pitch. A closed speaker refuses, and the pitch already set is not written again. */
    method PlayPitch(frequency: uint16) returns (error: Error)
      modifies this
      ensures Value() == Play(q, old(Value()), frequency)
      ensures log == old(log) + PitchWrites(q, old(Value()), frequency) && pinLog == old(pinLog)
      ensures error == if old(inited) then NoError else StateError
    {
      if !inited {
        return StateError;
      }
      error := NoError;
      var dutyCycle: nat := 0;
      if frequency == currentFreq {
        return;
      }
      if frequency == 0 {
        dutyCycle := 0;
      } else {
        var p := PeriodNs(q, frequency);
        dutyCycle := p / 2;
        WritePeriod(p);
      }
      WriteDuty(dutyCycle);
      if frequency == 0 {
        WriteEnable(0);
      } else {
        WriteEnable(1);
      }
      currentFreq := frequency;
    }

    method OpenVolumePins(env: Environment) returns (error: Error)
      modifies this`chip, this`line1, this`line2
      ensures (Value(), error) == OpenPins(old(Value()), env)
    {
      if !chip {
        chip := env.chipOpens;
      }
      if !chip {
        return OpenChipError;
      }
      line1 := env.line1Found;
      if !line1 {
        return GetLineError;
      }
      if !env.line1Granted {
        return GetLineError;
      }
      line2 := env.line2Found;
      if !line2 {
        return GetLineError;
      }
      if !env.line2Granted {
        return GetLineError;
      }
      return NoError;
    }

    method Open(env: Environment) returns (error: Error)
      modifies this
      ensures (Value(), error) == Init(old(Value()), env)
      ensures log == old(log) && pinLog == old(pinLog)
    {
      if inited {
        return StateError;
      }
      if !env.dirOpens {
        return SysfsError;
      }
      if !env.exportOk {
        return SysfsError;
      }
      error := OpenVolumePins(env);
      if error != NoError {
        return;
      }
      inited := true;
    }

    method CloseVolumePins()
      modifies this`chip, this`line1, this`line2, this`pinLog
      ensures PinsReleased(Value())
      ensures pinLog == old(pinLog) + ClosingEvents(old(Value()))
    {
      if line2 {
        pinLog := pinLog + [DriveLow(2)];
        pinLog := pinLog + [Release(2)];
        line2 := false;
      }
      if line1 {
        pinLog := pinLog + [DriveLow(1)];
        pinLog := pinLog + [Release(1)];
        line1 := false;
      }
      if chip {
        pinLog := pinLog + [CloseChip];
        chip := false;
      }
    }

    method Close() returns (error: Error)
      modifies this
      ensures (Value(), error) == DeInit(old(Value()))
      ensures pinLog == old(pinLog) + if old(inited) then ClosingEvents(old(Value())) else []
      ensures log == old(log) + ClosingWrites(old(Value()))
    {
      if !inited {
        return StateError;
      }
      WriteDuty(0);
      WriteEnable(0);
      CloseVolumePins();
      inited := false;
      error := NoError;
    }
  }
}
