/**
 * One tick of the volume governor (`normalize_volume`): resolve the player,
 * detect a track change, and step the volume down when it is above the ceiling.
 */
module Governor {
  import opened Wrappers
  import opened Discovery
  import Config

  /** The two fields copied out of the device's track info. */
  datatype Track = Track(artist: string, title: string)

  /**
   * The stored `current_track`: the empty mapping before any track is
   * detected, afterwards the two-field record of the last detected track.
   */
  datatype TrackIdentity = NoTrack | Current(track: Track)

  /** The informational lines a tick can log. */
  datatype LogEvent =
    | TrackChanged(artist: string, title: string)   // "<artist> - <title>"
    | TooLoud(level: int)                          // "Volume is too loud <level>. Reducing."

  /** What a completed tick leaves behind: the stored track, the lines logged in order, the device volume. */
  datatype Outcome = Outcome(stored: TrackIdentity, logs: seq<LogEvent>, volume: int)

  /** Why a tick did not complete. */
  datatype TickError =
    | PlayerNotFound(cause: DiscoveryError)
    | MissingTrackField(key: string)

  /**
   * The string whose hash identifies a track: the mapping's values joined with
   * no separator, artist first; the empty mapping gives "".
   */
  function Key(id: TrackIdentity): (r: string)
    ensures id.NoTrack? ==> r == ""
    ensures id.Current? ==>
      && |r| == |id.track.artist| + |id.track.title|
      && r[..|id.track.artist|] == id.track.artist
      && r[|id.track.artist|..] == id.track.title
  {
    match id
    case NoTrack => ""
    case Current(t) => t.artist + t.title
  }

  /** Two identities the tick cannot tell apart. */
  predicate SameKey(a: TrackIdentity, b: TrackIdentity) {
    Key(a) == Key(b)
  }

  /**
   * The track half of a tick: the stored track is replaced by the reading, and
   * one line is logged, exactly when the keys differ.
   */
  function TrackStep(stored: TrackIdentity, reading: Track): (r: (TrackIdentity, seq<LogEvent>))
    ensures SameKey(r.0, Current(reading))
    ensures r.0 == stored || r.0 == Current(reading)
    ensures r.1 == [] || r.1 == [TrackChanged(reading.artist, reading.title)]
    ensures r.1 != [] <==> !SameKey(stored, Current(reading))
    ensures SameKey(stored, Current(reading)) ==> r.0 == stored
  {
    if Key(Current(reading)) != Key(stored) then
      (Current(reading), [TrackChanged(reading.artist, reading.title)])
    else
      (stored, [])
  }

  /**
   * The volume half of a tick: above the ceiling the volume drops by one step
   * of 2 (not to the ceiling) and one line names the level; otherwise nothing.
   */
  function VolumeStep(volume: int, ceiling: int): (r: (int, seq<LogEvent>))
    ensures r.0 < volume <==> volume > ceiling
    ensures r.0 < volume ==> r.0 == volume - 2 && r.1 == [TooLoud(volume)]
    ensures r.0 >= volume ==> r.0 == volume && r.1 == []
    ensures volume > ceiling ==> r.0 >= ceiling - 1
  {
    if volume > ceiling then (volume - 2, [TooLoud(volume)]) else (volume, [])
  }

  /** The pure decision of one tick, given what was read from the device. */
  function Tick(stored: TrackIdentity, reading: Track, volume: int, ceiling: int): (r: Outcome)
    ensures SameKey(r.stored, Current(reading))
    ensures r.stored == stored || r.stored == Current(reading)
    ensures SameKey(stored, Current(reading)) ==> r.stored == stored
    ensures r.volume == (if volume > ceiling then volume - 2 else volume)
    ensures r.logs
         == (if SameKey(stored, Current(reading)) then [] else [TrackChanged(reading.artist, reading.title)])
          + (if volume > ceiling then [TooLoud(volume)] else [])
  {
    var (s, trackLogs) := TrackStep(stored, reading);
    var (v, volumeLogs) := VolumeStep(volume, ceiling);
    Outcome(s, trackLogs + volumeLogs, v)
  }

  /**
   * The new track record: the `artist` and `title` values of the track info
   * and nothing else; a missing key fails, `artist` being looked up first.
   */
  function ExtractTrack(info: map<string, string>): (r: Result<Track, TickError>)
    ensures r.Success? <==> "artist" in info && "title" in info
    ensures r.Success? ==> r.value.artist == info["artist"] && r.value.title == info["title"]
    ensures r.Failure? ==> r.error == MissingTrackField(if "artist" in info then "title" else "artist")
  {
    if "artist" !in info then Failure(MissingTrackField("artist"))
    else if "title" !in info then Failure(MissingTrackField("title"))
    else Success(Track(info["artist"], info["title"]))
  }

  /** The zone `find_player` resolves the profile's player name to, or why it fails. */
  function Resolve(settings: Config.Settings, zones: seq<Zone>): (r: Result<Zone, TickError>)
    ensures settings.playerName.None? ==> r == Failure(PlayerNotFound(NoDeviceFound("None")))
    ensures settings.playerName.Some? ==>
      (r.Failure? <==> forall i :: 0 <= i < |zones| ==> zones[i].playerName != settings.playerName.value)
    ensures settings.playerName.Some? && r.Failure? ==>
      r.error == PlayerNotFound(NoDeviceFound(settings.playerName.value))
    ensures r.Success? ==>
      settings.playerName.Some? && exists i :: IsFirstMatch(zones, settings.playerName.value, i) && r.value == zones[i]
  {
    match settings.playerName
    case None => Failure(PlayerNotFound(NoDeviceFound("None")))
    case Some(name) =>
      match FindPlayer(zones, name)
      case Failure(e) => Failure(PlayerNotFound(e))
      case Success(zone) => Success(zone)
  }

  /**
   * `normalize_volume`: one whole tick over a discovery snapshot. A failure
   * leaves nothing behind (the caller keeps its stored track); success is the
   * pure decision applied to what the resolved zone reports.
   */
  function NormalizeVolume(settings: Config.Settings, stored: TrackIdentity, zones: seq<Zone>): (r: Result<Outcome, TickError>)
    ensures r.Failure? <==>
      Resolve(settings, zones).Failure? || ExtractTrack(Resolve(settings, zones).value.trackInfo).Failure?
    ensures r.Failure? ==>
      r.error == if Resolve(settings, zones).Failure? then Resolve(settings, zones).error
                 else ExtractTrack(Resolve(settings, zones).value.trackInfo).error
    ensures r.Success? ==>
      exists i :: 0 <= i < |zones| && settings.playerName == Some(zones[i].playerName)
        && IsFirstMatch(zones, zones[i].playerName, i)
        && "artist" in zones[i].trackInfo && "title" in zones[i].trackInfo
        && r.value == Tick(stored, Track(zones[i].trackInfo["artist"], zones[i].trackInfo["title"]),
                           zones[i].volume, settings.desiredVolume)
  {
    match Resolve(settings, zones)
    case Failure(e) => Failure(e)
    case Success(zone) =>
      match ExtractTrack(zone.trackInfo)
      case Failure(e) => Failure(e)
      case Success(reading) => Success(Tick(stored, reading, zone.volume, settings.desiredVolume))
  }
}
