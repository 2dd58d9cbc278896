# soco-x volume governor, modelled in Dafny

soco-x polls one named Sonos player on a fixed interval. Each tick it
re-discovers the player by name, reads the current track and volume, logs an
`"<artist> - <title>"` line when the track changed, and, when the volume is
above the configured ceiling (`DESIRED_VOLUME`, 20), logs the level and lowers
the volume by 2.

This project models that tick as pure functions over immutable values:

- `wrappers.dfy` — `Option` and `Result`, standing in for `None` and raised exceptions.
- `config.dfy` — the `BaseConfig` / `WorkConfig` profiles as a `Settings` record.
- `discovery.dfy` — `find_player`: the first zone, in the iteration order of the
  set `soco.discover` returns, whose `player_name` equals the wanted name, or
  `NoDeviceFound`. Discovery itself is an input sequence of zones in that order. Each zone also carries its track-info mapping and its volume,
  so a tick is a function of a discovery snapshot.
- `governor.dfy` — `normalize_volume`. The stored `current_track` is either the
  empty mapping or a two-field `{artist, title}` record. The hash comparison is
  equality of `Key`, the values joined without a separator (`""` for the empty
  mapping). Log lines are abstract events: `TrackChanged(artist, title)` and
  `TooLoud(level)`.
- `ticks.dfy` — successive ticks. `Run` folds the tick over the readings of
  consecutive ticks, and the device keeps whatever volume each tick wrote. It
  also holds the lemmas about single and repeated ticks: idempotence, change
  detection, the boundary-collision gap and volume convergence.

Three behaviours of the code worth noting:

- `find_player` does not check that the name is non-empty. An empty name simply
  matches a zone whose name is empty.
- A reading whose artist and title are both empty is not logged on the first
  tick, because its key equals the key of the empty mapping.
- Tracks are compared by their concatenated key, not field by field. So
  `("A", "BC")` and `("AB", "C")` count as the same track.

## Model

| member | source | states |
|---|---|---|
| Discovery.Matching | soco_x.py:29-30 | the comprehension keeps exactly the zones named `name` (no others, none lost), and its head is the first such zone in the set's iteration order |
| Discovery.FindPlayer | soco_x.py:26-34 | fails with `NoDeviceFound(name)` exactly when no zone has that exact name; otherwise returns the first exactly-named zone in the iteration order of the discovered set |
| Discovery.FindPlayerAppend | soco_x.py:29-30 | in the model, zones after a match never change the result; zones before the first match decide it (name reads never fail here) |
| Discovery.FirstOfDuplicatesWins | soco_x.py:29-30 | when two zones share the wanted name, the one earlier in the set's iteration order is returned |
| Governor.Key | soco_x.py:40-41 | the compared string is "" for the empty mapping, and for a record splits back into artist then title at the artist's length; `Ticks.SameKeyFieldwise` is its partner |
| Governor.TrackStep | soco_x.py:48-52 | the stored track is replaced by the reading, with one `"artist - title"` line, exactly when the concatenated keys differ, and kept unchanged with no line when they are equal; the result's key always equals the reading's key; the record is replaced whole or not at all |
| Governor.VolumeStep | soco_x.py:54-56 | above the ceiling the volume drops by exactly 2 (not clamped to the ceiling; never below ceiling − 1) and one line names the old level; otherwise no change and no line |
| Governor.Tick | soco_x.py:44-56 | the combined tick: the logs are exactly the track line (iff the keys differ) followed by the reduction line naming the old level (iff volume > ceiling); the stored track is kept on equal keys and otherwise becomes the reading |
| Governor.ExtractTrack | soco_x.py:47-48 | the new record holds exactly the `artist` and `title` values of the track info and no other key; a missing key fails, `artist` being looked up first |
| Governor.Resolve | soco_x.py:46 | the configured player name is resolved by `find_player` to the first exactly-named zone, failing with `NoDeviceFound(name)` exactly when none matches; with no name configured (the base profile) it always fails with NoDeviceFound |
| Governor.NormalizeVolume | soco_x.py:44-56 | a tick fails exactly when resolution or track extraction fails, with `NoDeviceFound` if the player is not found and otherwise the missing-key error; on success it is the tick decision applied to the first matching zone's track and volume, with the profile's ceiling |
| Ticks.Run | soco_x.py:59-63 | an empty run changes nothing, and after successive ticks the volume is the volume rule iterated once per tick, whatever tracks were read |
| Ticks.RunStoredKey | soco_x.py:49-51 | after a non-empty run the stored key equals the last reading's key |
| Ticks.RunStoredOrigin | soco_x.py:48-51 | after a run the stored track is the initial one or one of the readings, never a mixture of two |
| Ticks.TicksToSettle | soco_x.py:54-56 | reaching the ceiling one step of 2 at a time takes no tick from at or below it, and from above it the count of steps that lands on ceiling − 1 or ceiling |
| Ticks.TicksToSettleClosedForm | soco_x.py:54-56 | from above the ceiling that count is ⌈(volume − ceiling)/2⌉ |
| Ticks.VolumeAfterClosedForm | soco_x.py:54-56 | after n ticks the volume has dropped by 2 for each tick it was still above the ceiling |
| Ticks.Convergence | soco_x.py:54-56 | from volume V above the ceiling D, exactly ⌈(V − D)/2⌉ ticks reach a volume in [D − 1, D]; every earlier tick is still above D |
| Ticks.Settled | soco_x.py:54-56 | once at or below the ceiling, further ticks leave the volume unchanged |
| Ticks.RunVolumeBounds | soco_x.py:54-56 | over any run the volume never rises, stays put when it starts within the ceiling, and never drops below ceiling − 1 when it starts above |
| Ticks.RunSettles | soco_x.py:54-56 | any run of at least ⌈(V − D)/2⌉ ticks from V > D ends at D − 1 or D, whatever tracks were read |
| Ticks.TickLines | soco_x.py:50-55 | one tick logs one track line iff the keys differ and one reduction line iff the volume is above the ceiling |
| Ticks.RunTrackLines | soco_x.py:49-52 | a run logs one track line for each reading whose key differs from the key before it (the stored key for the first reading), and no others |
| Ticks.RunReductionLines | soco_x.py:54-55 | a run logs one reduction line for each tick spent above the ceiling: min(ticks, TicksToSettle(V, D)); that is ⌈(V − D)/2⌉ from above the ceiling and 0 otherwise |
| Ticks.RepeatedReadingLogsOnce | soco_x.py:49-52 | N identical readings log the track at most once, and exactly once iff it differs from the stored track's key |
| Ticks.TickIdempotent | soco_x.py:49-52 | repeating a tick with the same reading keeps the stored track and logs no track line |
| Ticks.FirstTick | soco_x.py:37-41 | from the empty initial mapping, a reading is logged iff its artist or its title is non-empty |
| Ticks.SameKeyFieldwise | soco_x.py:40-41 | equal keys with the artist/title boundary at the same position mean equal tracks |
| Ticks.ChangeDetected | soco_x.py:49-51 | a reading differing from the stored track is stored and logged exactly unless it is a boundary collision: artist lengths differ and the concatenations coincide |
| Ticks.BoundaryCollision | soco_x.py:41-41 | the precision gap: `("A","BC")` stored and `("AB","C")` read leaves `("A","BC")` stored and logs no track line |
| Ticks.LoudStartScenario | soco_x.py:44-56 | with the running profile, three ticks reading "A"/"X" from volume 25 log the track once, then reductions at 25, 23 and 21, ending at 19 |
| Ticks.BaseProfileNeverResolves | soco_x.py:10-10 | with the base profile, which names no player, every tick fails with `NoDeviceFound("None")` |

## Left out

- `soco.discover`, `get_current_track_info` and the `volume` getter and setter are calls into the device library. Their results are inputs: a sequence of zones, each carrying its track info and volume. The new volume is an output.
- The library's own 0–100 clamping of the volume setter is not modelled. It is not visible in this code.
- The source reads `player.volume` three times in one tick: for the comparison, for the log line and for `-= 2`. The model reads it once, so the device is assumed not to change volume during a tick.
- A failed or timed-out discovery, and a `None` result from `soco.discover`, are caught by the bare `except` and become `NoDeviceFound`. Only the "no zone has this name" case is modelled; an empty zone sequence covers "nothing found".
- Between ticks nothing but the governor changes the volume: each tick reads the volume the previous tick wrote. `Run`, `Convergence`, `RunSettles` and `RunReductionLines` rely on this; a user or another controller turning the volume up in between is not modelled.
- `soco.discover` returns a set. The zone sequence stands for that set's iteration order, which the program does not fix. So which of two same-named zones is returned depends on that order, and `FirstOfDuplicatesWins`'s "earlier" means earlier in it.
- Discovery.FindPlayerAppend: holds of the model only. The comprehension reads `player_name` of every zone, even after a match. A failing read anywhere becomes `NoDeviceFound`. In the model, name reads never fail.
- The truthiness test `zone and ...` in the comprehension is not modelled. Discovered zone objects are always truthy.
- Device-communication failures while reading the track or volume, or writing the volume, are not modelled. They belong to the external library.
- The asyncio scheduler, the sleep interval, and the cancellation drain in `loop_set_device` and `main` are not modelled. This is event-loop plumbing. `Run` models only the order of successive ticks, with the state each tick leaves behind. `sleepInterval` and `discoverTimeout` exist in `Settings` but nothing reads them.
- The log formatting and logger configuration are not modelled. Log lines are abstract events.
- Python's `hash` is not modelled. Two keys compare equal exactly when the strings are equal, so hash collisions are ignored.
