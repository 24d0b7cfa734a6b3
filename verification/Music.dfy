/** Track tables: what the player plays, and the tables the firmware ships (Music.h). */
module Music {

  import opened Common

  datatype Track = Track(melody: seq<uint16>, rhythm: seq<uint16>)

  /** `maxTracks` is the sentinel id that ends the enumeration of tracks;
      `tracks` holds the ids that have tables. */
  datatype Catalogue = Catalogue(maxTracks: nat, tracks: map<nat, Track>)

  /** The lookup fails for an id without tables. */
  function GetTrack(cat: Catalogue, id: nat): Option<Track> {
    if id in cat.tracks then Some(cat.tracks[id]) else None
  }

  /** Every note has a length. The player measures a track by its melody alone. */
  predicate RhythmCoversMelody(cat: Catalogue) {
    forall id | id in cat.tracks :: |cat.tracks[id].melody| <= |cat.tracks[id].rhythm|
  }

  // Notes and lengths of the shipped tables. The two names NOTE_2000_HZ and
  // NOTE_2500_HZ carry each other's frequency in the header, and do so here.
  const NOTE_C3: uint16 := 131
  const NOTE_E3: uint16 := 165
  const NOTE_G3: uint16 := 196
  const NOTE_A3: uint16 := 220
  const NOTE_C4: uint16 := 262
  const NOTE_D4: uint16 := 294
  const NOTE_E4: uint16 := 330
  const NOTE_F4: uint16 := 349
  const NOTE_G4: uint16 := 392
  const NOTE_A4: uint16 := 440
  const NOTE_B4: uint16 := 494
  const NOTE_C5: uint16 := 523
  const NOTE_D5: uint16 := 587
  const NOTE_G5: uint16 := 784
  const NOTE_A5: uint16 := 880
  const NOTE_B5: uint16 := 988
  const NOTE_980_HZ: uint16 := 980
  const NOTE_1120_HZ: uint16 := 1120
  const NOTE_1800_HZ: uint16 := 1800
  const NOTE_2000_HZ: uint16 := 2500
  const NOTE_2500_HZ: uint16 := 2000
  const NOTE_3200_HZ: uint16 := 3200
  const REST_NOTE: uint16 := 0
  const NOTE_SEPARATION: uint16 := 10
  const BEAT_TIME: uint16 := 300
  const SIXTEENTH_NOTE: uint16 := BEAT_TIME / 4 - NOTE_SEPARATION

  const SCALE := Track([NOTE_C4, NOTE_D4, NOTE_E4, NOTE_F4, NOTE_G4, NOTE_A4, NOTE_B4, NOTE_C5],
                       [300, 300, 300, 300, 300, 300, 300, 300])
  const ALARM1 := Track([NOTE_G4, REST_NOTE, NOTE_E4, REST_NOTE, NOTE_C4, REST_NOTE],
                        [SIXTEENTH_NOTE, NOTE_SEPARATION, SIXTEENTH_NOTE, NOTE_SEPARATION,
                         SIXTEENTH_NOTE, NOTE_SEPARATION])
  const ALARM2 := Track([NOTE_2500_HZ, NOTE_3200_HZ, REST_NOTE, NOTE_2500_HZ, NOTE_3200_HZ,
                         REST_NOTE, NOTE_2500_HZ, NOTE_3200_HZ],
                        [300, 300, 100, 300, 300, 100, 300, 300])
  const ALERT1 := Track([NOTE_C3, REST_NOTE, NOTE_E3, REST_NOTE],
                        [SIXTEENTH_NOTE, NOTE_SEPARATION, SIXTEENTH_NOTE, NOTE_SEPARATION])
  const ALERT2 := Track([NOTE_C4, REST_NOTE, NOTE_E4, REST_NOTE, NOTE_G4, REST_NOTE],
                        [SIXTEENTH_NOTE, NOTE_SEPARATION, SIXTEENTH_NOTE, NOTE_SEPARATION,
                         SIXTEENTH_NOTE, NOTE_SEPARATION])
  const BAD_INPUT := Track([NOTE_C3], [500])
  const ODE_TO_JOY := Track([NOTE_B5, REST_NOTE, NOTE_B5, REST_NOTE, NOTE_C5, REST_NOTE, NOTE_D5,
                             REST_NOTE, NOTE_D5, REST_NOTE, NOTE_C5, REST_NOTE, NOTE_B5, REST_NOTE,
                             NOTE_A5, REST_NOTE, NOTE_G5, REST_NOTE, NOTE_G5, REST_NOTE, NOTE_A5,
                             REST_NOTE, NOTE_B5, REST_NOTE, NOTE_B5, REST_NOTE, NOTE_A5, REST_NOTE,
                             NOTE_A5],
                            [250, 250, 250, 250, 250, 250, 250, 250, 250, 250, 250, 250, 250, 250,
                             250, 250, 250, 250, 250, 250, 250, 250, 250, 250, 500, 250, 250, 250,
                             250])
  const DOCKED := Track([NOTE_980_HZ, NOTE_1120_HZ, NOTE_980_HZ], [40, 40, 40])
  const KEY_PRESS := Track([NOTE_1800_HZ], [40])
  const LONG := Track([NOTE_2000_HZ], [900])
  const QUICK := Track([NOTE_2000_HZ], [150])
  const QUICK_THREE := Track([NOTE_2000_HZ, REST_NOTE, NOTE_2000_HZ, REST_NOTE, NOTE_2000_HZ],
                             [150, 600, 150, 600, 150])
  const SCAN := Track([NOTE_2500_HZ], [100])
  const NOVA := Track([NOTE_A3, REST_NOTE, NOTE_C3, REST_NOTE, NOTE_E3, REST_NOTE, NOTE_G3, REST_NOTE],
                      [SIXTEENTH_NOTE, NOTE_SEPARATION, SIXTEENTH_NOTE, NOTE_SEPARATION,
                       SIXTEENTH_NOTE, NOTE_SEPARATION, SIXTEENTH_NOTE, NOTE_SEPARATION])

  const MAX_TRACKS: nat := 14

  /** The switch over the enumeration of track ids; BootTune plays Ode to Joy. */
  function ShippedTrack(id: nat): Track
    requires id < MAX_TRACKS
  {
    match id
    case 0 => SCALE
    case 1 => ALARM1
    case 2 => ALARM2
    case 3 => ALERT1
    case 4 => ALERT2
    case 5 => BAD_INPUT
    case 6 => ODE_TO_JOY
    case 7 => DOCKED
    case 8 => KEY_PRESS
    case 9 => LONG
    case 10 => QUICK
    case 11 => QUICK_THREE
    case 12 => SCAN
    case _ => NOVA
  }

  const SHIPPED: Catalogue :=
    Catalogue(MAX_TRACKS, map id: nat | id < MAX_TRACKS :: ShippedTrack(id))

  /** A table the player can run through: nonempty, one length per note, no zero
      length, and no pitch above the range in which periods determine pitches. */
  predicate Playable(t: Track) {
    && 0 < |t.melody| == |t.rhythm|
    && (forall i | 0 <= i < |t.melody| :: t.melody[i] <= 31622)
    && (forall i | 0 <= i < |t.rhythm| :: 0 < t.rhythm[i])
  }

  lemma OdeToJoyLengths()
    ensures |ODE_TO_JOY.melody| == |ODE_TO_JOY.rhythm| == 29
  {
  }

  lemma OdeToJoyIsPlayable()
    ensures Playable(ODE_TO_JOY)
  {
    OdeToJoyLengths();
    var m, r := ODE_TO_JOY.melody, ODE_TO_JOY.rhythm;
    assert forall i | 0 <= i < |m| :: m[i] <= 31622;
    assert forall i | 0 <= i < |r| :: 0 < r[i];
  }

  lemma ShippedTrackIsPlayable(id: nat)
    requires id < MAX_TRACKS
    ensures Playable(ShippedTrack(id))
  {
    match id
    case 0 => assert Playable(SCALE);
    case 1 => assert Playable(ALARM1);
    case 2 => assert Playable(ALARM2);
    case 3 => assert Playable(ALERT1);
    case 4 => assert Playable(ALERT2);
    case 5 => assert Playable(BAD_INPUT);
    case 6 => OdeToJoyIsPlayable();
    case 7 => assert Playable(DOCKED);
    case 8 => assert Playable(KEY_PRESS);
    case 9 => assert Playable(LONG);
    case 10 => assert Playable(QUICK);
    case 11 => assert Playable(QUICK_THREE);
    case 12 => assert Playable(SCAN);
    case _ => assert Playable(NOVA);
  }

  /** The shipped tables meet the player's hypothesis: exactly the ids below the
      sentinel have tables, and every table is playable. */
  lemma ShippedTablesMatch()
    ensures forall id: nat :: id < SHIPPED.maxTracks <==> id in SHIPPED.tracks
    ensures forall id | id in SHIPPED.tracks :: Playable(SHIPPED.tracks[id])
    ensures RhythmCoversMelody(SHIPPED)
  {
    forall id | id in SHIPPED.tracks ensures Playable(SHIPPED.tracks[id]) {
      ShippedTrackIsPlayable(id);
    }
  }
}
