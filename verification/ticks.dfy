/**
 * Successive ticks: the polling loop seen as a fold of the tick decision over
 * the readings of consecutive ticks, the device keeping the volume each tick
 * writes. Properties of a single tick are here too.
 */
module Ticks {
  import opened Governor
  import Config
  import Wrappers

  /** Ticks over `readings`, in order, starting from `stored` and `volume`. */
  function Run(stored: TrackIdentity, volume: int, readings: seq<Track>, ceiling: int): (r: Outcome)
    ensures |readings| == 0 ==> r == Outcome(stored, [], volume)
    ensures r.volume == VolumeAfter(volume, ceiling, |readings|)
    decreases |readings|
  {
    if |readings| == 0 then Outcome(stored, [], volume)
    else
      var o := Tick(stored, readings[0], volume, ceiling);
      var rest := Run(o.stored, o.volume, readings[1..], ceiling);
      Outcome(rest.stored, o.logs + rest.logs, rest.volume)
  }

  /** A non-empty run is its first tick followed by the run from what that tick left. */
  lemma RunFirstTick(stored: TrackIdentity, volume: int, readings: seq<Track>, ceiling: int)
    requires |readings| > 0
    ensures var o := Tick(stored, readings[0], volume, ceiling);
      var rest := Run(o.stored, o.volume, readings[1..], ceiling);
      Run(stored, volume, readings, ceiling) == Outcome(rest.stored, o.logs + rest.logs, rest.volume)
  {
  }

  /** After a non-empty run the stored key is the last reading's key. */
  lemma {:induction false} RunStoredKey(stored: TrackIdentity, volume: int, readings: seq<Track>, ceiling: int)
    requires |readings| > 0
    ensures SameKey(Run(stored, volume, readings, ceiling).stored, Current(readings[|readings| - 1]))
    decreases |readings|
  {
    var o := Tick(stored, readings[0], volume, ceiling);
    RunFirstTick(stored, volume, readings, ceiling);
    if |readings| > 1 {
      RunStoredKey(o.stored, o.volume, readings[1..], ceiling);
    }
  }

  /** The track stored after a run is the initial one or one of the readings, never a mixture. */
  lemma {:induction false} RunStoredOrigin(stored: TrackIdentity, volume: int, readings: seq<Track>, ceiling: int)
    ensures var s := Run(stored, volume, readings, ceiling).stored;
      s == stored || (s.Current? && s.track in readings)
    decreases |readings|
  {
    if |readings| > 0 {
      var o := Tick(stored, readings[0], volume, ceiling);
      RunFirstTick(stored, volume, readings, ceiling);
      RunStoredOrigin(o.stored, o.volume, readings[1..], ceiling);
      assert forall t :: t in readings[1..] ==> t in readings;
    }
  }

  // ---------------------------------------------------------------- volume

  /** The volume after `n` ticks, whatever tracks they read. */
  function VolumeAfter(volume: int, ceiling: int, n: nat): int
    decreases n
  {
    if n == 0 then volume else VolumeAfter(VolumeStep(volume, ceiling).0, ceiling, n - 1)
  }

  /**
   * How many ticks it takes, one step at a time, to bring `volume` to at most
   * `ceiling`: none from within it, and from above it the one count that lands
   * on `ceiling - 1` or `ceiling`.
   */
  function TicksToSettle(volume: int, ceiling: int): (r: nat)
    ensures volume <= ceiling ==> r == 0
    ensures volume > ceiling ==> r >= 1 && ceiling - 1 <= volume - 2 * r <= ceiling
    decreases if volume > ceiling then volume - ceiling else 0
  {
    if volume <= ceiling then 0 else 1 + TicksToSettle(volume - 2, ceiling)
  }

  /** From above the ceiling the tick count is ⌈(volume - ceiling) / 2⌉. */
  lemma TicksToSettleClosedForm(volume: int, ceiling: int)
    requires volume > ceiling
    ensures TicksToSettle(volume, ceiling) == (volume - ceiling + 1) / 2
  {
  }

  /** The smaller of two counts. */
  function Min(a: nat, b: nat): (m: nat) {
    if a <= b then a else b
  }

  /** One tick uses up one of the ticks still needed, or none once settled. */
  lemma TicksToSettleStep(volume: int, ceiling: int, n: nat)
    requires n > 0
    ensures var after := VolumeStep(volume, ceiling).0;
      (if volume > ceiling then 1 else 0) + Min(n - 1, TicksToSettle(after, ceiling))
        == Min(n, TicksToSettle(volume, ceiling))
  {
  }

  /** After `n` ticks the volume has dropped by 2 per tick, for as long as it was above the ceiling. */
  lemma {:induction false} VolumeAfterClosedForm(volume: int, ceiling: int, n: nat)
    ensures VolumeAfter(volume, ceiling, n) == volume - 2 * Min(n, TicksToSettle(volume, ceiling))
    decreases n
  {
    if n > 0 {
      VolumeAfterClosedForm(VolumeStep(volume, ceiling).0, ceiling, n - 1);
      TicksToSettleStep(volume, ceiling, n);
    }
  }

  /**
   * Convergence: from a volume above the ceiling, exactly ⌈(volume - ceiling) / 2⌉
   * ticks bring it to at most the ceiling, every earlier tick still being above
   * it, and the settled volume is never below `ceiling - 1`.
   */
  lemma Convergence(volume: int, ceiling: int)
    requires volume > ceiling
    ensures var t := (volume - ceiling + 1) / 2;
      && ceiling - 1 <= VolumeAfter(volume, ceiling, t) <= ceiling
      && forall k :: 0 <= k < t ==> VolumeAfter(volume, ceiling, k) > ceiling
  {
    var t := (volume - ceiling + 1) / 2;
    TicksToSettleClosedForm(volume, ceiling);
    VolumeAfterClosedForm(volume, ceiling, t);
    forall k | 0 <= k < t ensures VolumeAfter(volume, ceiling, k) > ceiling {
      VolumeAfterClosedForm(volume, ceiling, k);
    }
  }

  /** Once settled, further ticks leave the volume alone. */
  lemma Settled(volume: int, ceiling: int, n: nat)
    requires n >= TicksToSettle(volume, ceiling)
    ensures VolumeAfter(volume, ceiling, n) <= ceiling
    ensures VolumeAfter(volume, ceiling, n) == VolumeAfter(volume, ceiling, TicksToSettle(volume, ceiling))
  {
    VolumeAfterClosedForm(volume, ceiling, n);
    VolumeAfterClosedForm(volume, ceiling, TicksToSettle(volume, ceiling));
  }

  /**
   * Over any run the volume never rises, stays put when it starts within the
   * ceiling, and never drops below `ceiling - 1` when it starts above it.
   */
  lemma RunVolumeBounds(stored: TrackIdentity, volume: int, readings: seq<Track>, ceiling: int)
    ensures Run(stored, volume, readings, ceiling).volume <= volume
    ensures volume <= ceiling ==> Run(stored, volume, readings, ceiling).volume == volume
    ensures volume > ceiling ==> Run(stored, volume, readings, ceiling).volume >= ceiling - 1
  {
    VolumeAfterClosedForm(volume, ceiling, |readings|);
  }

  /** A run of at least ⌈(volume - ceiling) / 2⌉ ticks from above the ceiling ends at `ceiling - 1` or `ceiling`. */
  lemma RunSettles(stored: TrackIdentity, volume: int, readings: seq<Track>, ceiling: int)
    requires volume > ceiling
    requires |readings| >= (volume - ceiling + 1) / 2
    ensures ceiling - 1 <= Run(stored, volume, readings, ceiling).volume <= ceiling
  {
    TicksToSettleClosedForm(volume, ceiling);
    VolumeAfterClosedForm(volume, ceiling, |readings|);
  }

  // ---------------------------------------------------------------- log lines

  /** The number of track lines among `logs`. */
  function TrackLines(logs: seq<LogEvent>): nat {
    if |logs| == 0 then 0 else (if logs[0].TrackChanged? then 1 else 0) + TrackLines(logs[1..])
  }

  /** The number of volume-reduction lines among `logs`. */
  function ReductionLines(logs: seq<LogEvent>): nat {
    if |logs| == 0 then 0 else (if logs[0].TooLoud? then 1 else 0) + ReductionLines(logs[1..])
  }

  /** Line counts add up over concatenated logs. */
  lemma {:induction false} LinesAppend(a: seq<LogEvent>, b: seq<LogEvent>)
    ensures TrackLines(a + b) == TrackLines(a) + TrackLines(b)
    ensures ReductionLines(a + b) == ReductionLines(a) + ReductionLines(b)
    decreases |a|
  {
    if |a| > 0 {
      assert (a + b)[1..] == a[1..] + b;
      LinesAppend(a[1..], b);
    } else {
      assert a + b == b;
    }
  }

  /** One tick logs one track line iff the keys differ and one reduction line iff the volume is too loud. */
  lemma TickLines(stored: TrackIdentity, reading: Track, volume: int, ceiling: int)
    ensures TrackLines(Tick(stored, reading, volume, ceiling).logs)
         == if SameKey(stored, Current(reading)) then 0 else 1
    ensures ReductionLines(Tick(stored, reading, volume, ceiling).logs)
         == if volume > ceiling then 1 else 0
  {
    var trackLogs := if SameKey(stored, Current(reading)) then [] else [TrackChanged(reading.artist, reading.title)];
    var volumeLogs := if volume > ceiling then [TooLoud(volume)] else [];
    LinesAppend(trackLogs, volumeLogs);
  }

  /**
   * Reference count of track changes: the positions whose key differs from the
   * key before it (the stored key for the first reading).
   */
  function Changes(previousKey: string, readings: seq<Track>): nat
    decreases |readings|
  {
    if |readings| == 0 then 0
    else
      (if Key(Current(readings[0])) != previousKey then 1 else 0)
        + Changes(Key(Current(readings[0])), readings[1..])
  }

  /** A run logs one track line per change of key between consecutive readings, and no more. */
  lemma {:induction false} RunTrackLines(stored: TrackIdentity, volume: int, readings: seq<Track>, ceiling: int)
    ensures TrackLines(Run(stored, volume, readings, ceiling).logs) == Changes(Key(stored), readings)
    decreases |readings|
  {
    if |readings| > 0 {
      var o := Tick(stored, readings[0], volume, ceiling);
      var rest := Run(o.stored, o.volume, readings[1..], ceiling);
      RunFirstTick(stored, volume, readings, ceiling);
      RunTrackLines(o.stored, o.volume, readings[1..], ceiling);
      TickLines(stored, readings[0], volume, ceiling);
      LinesAppend(o.logs, rest.logs);
    }
  }

  /** A run logs one reduction line per tick spent above the ceiling. */
  lemma {:induction false} RunReductionLines(stored: TrackIdentity, volume: int, readings: seq<Track>, ceiling: int)
    ensures ReductionLines(Run(stored, volume, readings, ceiling).logs)
         == Min(|readings|, TicksToSettle(volume, ceiling))
    decreases |readings|
  {
    if |readings| > 0 {
      var o := Tick(stored, readings[0], volume, ceiling);
      var rest := Run(o.stored, o.volume, readings[1..], ceiling);
      RunFirstTick(stored, volume, readings, ceiling);
      RunReductionLines(o.stored, o.volume, readings[1..], ceiling);
      TickLines(stored, readings[0], volume, ceiling);
      LinesAppend(o.logs, rest.logs);
      TicksToSettleStep(volume, ceiling, |readings|);
    }
  }

  /** A reading repeated after itself never changes the key. */
  lemma {:induction false} NoChangesWhileRepeated(t: Track, readings: seq<Track>)
    requires forall i :: 0 <= i < |readings| ==> readings[i] == t
    ensures Changes(Key(Current(t)), readings) == 0
    decreases |readings|
  {
    if |readings| > 0 {
      NoChangesWhileRepeated(t, readings[1..]);
    }
  }

  /**
   * Idempotence over a run: N identical readings log the track at most once,
   * and once exactly when it differs from the stored one.
   */
  lemma RepeatedReadingLogsOnce(stored: TrackIdentity, volume: int, t: Track, readings: seq<Track>, ceiling: int)
    requires forall i :: 0 <= i < |readings| ==> readings[i] == t
    ensures TrackLines(Run(stored, volume, readings, ceiling).logs)
         == if |readings| > 0 && !SameKey(stored, Current(t)) then 1 else 0
  {
    RunTrackLines(stored, volume, readings, ceiling);
    if |readings| > 0 {
      NoChangesWhileRepeated(t, readings[1..]);
    }
  }

  // ---------------------------------------------------------------- one tick

  /** A second tick with the same reading changes nothing on the track side and logs no track line. */
  lemma TickIdempotent(stored: TrackIdentity, reading: Track, volume: int, ceiling: int)
    ensures var o := Tick(stored, reading, volume, ceiling);
      var o2 := Tick(o.stored, reading, o.volume, ceiling);
      o2.stored == o.stored && TrackLines(o2.logs) == 0
  {
  }

  /** On the first tick the stored key is "": a reading is logged iff artist and title are not both empty. */
  lemma FirstTick(reading: Track, volume: int, ceiling: int)
    ensures TrackChanged(reading.artist, reading.title) in Tick(NoTrack, reading, volume, ceiling).logs
        <==> reading.artist != "" || reading.title != ""
  {
  }

  /** Equal keys with the artist boundary in the same place mean equal tracks. */
  lemma SameKeyFieldwise(a: Track, b: Track)
    requires SameKey(Current(a), Current(b))
    requires |a.artist| == |b.artist|
    ensures a == b
  {
  }

  /**
   * Change detection: a reading differing from the stored track is stored and
   * logged, except exactly when it is a boundary collision (the artist/title
   * split moved but the concatenation is the same).
   */
  lemma ChangeDetected(s: Track, reading: Track, volume: int, ceiling: int)
    requires s != reading
    ensures var o := Tick(Current(s), reading, volume, ceiling);
      (o.stored == Current(reading) && TrackChanged(reading.artist, reading.title) in o.logs)
        <==> !(|s.artist| != |reading.artist| && SameKey(Current(s), Current(reading)))
  {
  }

  /** The precision gap: ("A", "BC") and ("AB", "C") are the same track to the governor. */
  lemma BoundaryCollision(volume: int, ceiling: int)
    ensures var o := Tick(Current(Track("A", "BC")), Track("AB", "C"), volume, ceiling);
      o.stored == Current(Track("A", "BC")) && TrackLines(o.logs) == 0
  {
  }

  /**
   * The worked scenario with the running profile: three ticks reading "A" / "X"
   * from volume 25 log the track once and reduce 25, 23, 21, ending at 19.
   */
  lemma LoudStartScenario()
    ensures Run(NoTrack, 25, [Track("A", "X"), Track("A", "X"), Track("A", "X")], Config.Active.desiredVolume)
         == Outcome(Current(Track("A", "X")), [TrackChanged("A", "X"), TooLoud(25), TooLoud(23), TooLoud(21)], 19)
  {
  }

  /** The base profile names no player, so every tick fails with NoDeviceFound. */
  lemma BaseProfileNeverResolves(stored: TrackIdentity, zones: seq<Discovery.Zone>)
    ensures NormalizeVolume(Config.Base, stored, zones) == Wrappers.Failure(PlayerNotFound(Discovery.NoDeviceFound("None")))
  {
  }
}
