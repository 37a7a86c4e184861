# A DAW screen and a mining dashboard, modelled in Dafny

This project models the component logic of two mock front-end screens written
as React components. Both screens are pure component state. There is no audio
engine, no miner and no network.

- **DAWWorkspace** (`Workspace`) holds the transport. Play/pause flips a flag.
  Stop halts and rewinds to zero. The skip buttons move the position by ten
  seconds, and skipping back is clamped at zero. `formatTime` renders the
  position as `m:ss`. The workspace also holds the initial BPM, the master
  volume and the fixed track list it hands to the mixer and the timeline.
- **TrackMixer** (`Mixer`) keeps a local copy of the track list. Its handlers
  call `updateTrack(id, partial)`, which spreads a partial record over the track
  with that id. It also renders the pan label `R<n>` / `L<n>` / `C`.
- **EffectsRack** (`Effects`) keeps a list of effects. Each effect can be
  switched on and off, and each has a table of named parameters that sliders
  write. Every parameter has a slider range.
- **Timeline** (`Timeline`) holds a zoom factor between 0.5 and 3 in steps of
  0.25, stored here as a whole number of quarters from 2 to 12. It also holds
  a grid switch, the 128 grid lines, the mock clip table, one lane of clips
  per track, and the clip box positions.
- **MiningCard** (`MiningCard`) is driven by a one-second tick while active.
  Each tick advances a progress gauge modulo 100 and sometimes finds a block.
  Going inactive resets the gauge but keeps the block count. The card looks
  up a hash-rate unit per coin and shows different read-outs when idle.
- **MiningControls** (`MiningControls`) counts the active miners in a status
  record and enables the "Start All" and "Stop All" buttons from those counts.

Shared helpers live in two modules:

- `Common` holds `Option` and `MapWhere`. `MapWhere` is the
  `list.map(x => x.id === id ? f(x) : x)` update that both the mixer and the
  rack use.
- `Decimal` prints a non-negative integer in decimal, as JavaScript does for
  integers below 1e21, and reads it back.

The components that update state in place are classes: `DAWWorkspace`,
`TrackMixer`, `Rack`, `TimelineView` and `MinerCard`. Each method's contract
ties the new state to a pure step function of the old one. The properties
themselves are proved as lemmas about those functions.

Two facts about the code shape the model:

- An unknown id leaves the list unchanged. The `map` in `updateTrack`,
  `toggleEffect` and `updateParameter` selects nothing and reports no error
  (`Effects.UnknownIdIsNoOp`; the last ensures of `Mixer.UpdateTracks`).
- `hashRate` is a constant prop that the card only displays
  (src/components/MiningCard.tsx:105), so it is a field of `Crypto` and no
  tick changes it.

## Model

| member | source | states |
|---|---|---|
| Workspace.DAWWorkspace.constructor | src/components/DAWWorkspace.tsx:12-23 | starts stopped at 0 s, BPM 120, master volume 75, with the five fixed tracks; the state is on the ten-second grid |
| Workspace.DAWWorkspace.PlayPause | src/components/DAWWorkspace.tsx:25-27 | the new transport is `Step(old, PlayPause)` and stays on the ten-second grid |
| Workspace.DAWWorkspace.Stop | src/components/DAWWorkspace.tsx:29-32 | the new transport is `Step(old, Stop)` and stays on the grid |
| Workspace.DAWWorkspace.SkipBack | src/components/DAWWorkspace.tsx:51 | the new transport is `Step(old, SkipBack)` and stays on the grid |
| Workspace.DAWWorkspace.SkipForward | src/components/DAWWorkspace.tsx:75 | the new transport is `Step(old, SkipForward)` and stays on the grid |
| Workspace.DAWWorkspace.SetMasterVolume | src/components/DAWWorkspace.tsx:101-107 | the master volume becomes the slider's value |
| Workspace.Step | src/components/DAWWorkspace.tsx:25-32 | one button press (play/pause, stop, skip back to `max(0, t - 10)` as at line 51, skip forward to `t + 10` as at line 75); its properties are stated by `StepKeepsGrid`, `SkipBackNeverNegative`, `StopIdempotent`, `PlayPauseTwice` and `SkipsUndo` |
| Workspace.StepKeepsGrid | src/components/DAWWorkspace.tsx:25-32 | every button press keeps the position a non-negative multiple of ten |
| Workspace.SkipBackNeverNegative | src/components/DAWWorkspace.tsx:51 | skipping back never gives a negative position and never moves forward |
| Workspace.ReachableOnGrid | src/components/DAWWorkspace.tsx:13-32 | every state reached by any sequence of presses is on the ten-second grid |
| Workspace.SkipsForward | src/components/DAWWorkspace.tsx:75 | k forward skips add exactly 10·k seconds, with no upper bound |
| Workspace.RunAppend | src/components/DAWWorkspace.tsx:25-32 | running two sequences of presses equals running their concatenation |
| Workspace.GridIsReachable | src/components/DAWWorkspace.tsx:12-13 | conversely, every playing or stopped state on the grid is reachable from the initial state |
| Workspace.StopIdempotent | src/components/DAWWorkspace.tsx:29-32 | stop gives `(stopped, 0)` from any state, and pressing it again changes nothing |
| Workspace.PlayPauseTwice | src/components/DAWWorkspace.tsx:25-27 | play/pause never moves the position, and two presses restore the state |
| Workspace.SkipsUndo | src/components/DAWWorkspace.tsx:51 | forward-then-back restores any non-negative position; back-then-forward restores any position of at least ten |
| Workspace.FormatTime | src/components/DAWWorkspace.tsx:34-38 | the text is at least four characters long with a colon third from the end |
| Workspace.ParseClock | src/components/DAWWorkspace.tsx:37 | a minutes numeral, a colon and a two-digit seconds field below 60 read back as `60·m + ss` |
| Workspace.ClockRoundTrip | src/components/DAWWorkspace.tsx:35-37 | the text for m minutes and ss < 60 seconds reads back as `60·m + ss`, so the seconds field is padded to two digits |
| Workspace.FormatTimeRoundTrip | src/components/DAWWorkspace.tsx:34-38 | the clock text determines the seconds: reading back `formatTime(s)` gives `s` |
| Workspace.ClockEndsInZero | src/components/DAWWorkspace.tsx:34-38 | on the ten-second grid the clock's last digit is 0 |
| Workspace.InitialTracksWellFormed | src/components/DAWWorkspace.tsx:17-23 | the five tracks have ids 1..5 and volumes and pans inside the mixer's slider ranges |
| Workspace.InitialTracks | src/components/DAWWorkspace.tsx:17-23 | the five tracks of the workspace; `InitialTracksWellFormed` states their ids 1..5 and in-range values |
| Workspace.EveryClipInOneLane | src/components/Timeline.tsx:117-138 | with the workspace's tracks, every mock clip appears in exactly one lane |
| Common.MapWhere | src/components/TrackMixer.tsx:28-30 | the length is kept; selected elements are replaced by their image and all others are kept in place |
| Common.MapWhereMissIsIdentity | src/components/EffectsRack.tsx:57-61 | when no element is selected the list is unchanged |
| Decimal.Show | src/components/TrackMixer.tsx:76 | the numeral is non-empty and all digits, has one digit exactly below 10, and has no leading zero |
| Decimal.ValueShow | src/components/DAWWorkspace.tsx:37 | reading a printed number back gives the number |
| Decimal.ShowInjective | src/components/DAWWorkspace.tsx:37 | two numbers print the same only when equal |
| Decimal.PadTwo | src/components/DAWWorkspace.tsx:37 | `padStart(2, '0')`: two characters, the input at the right, zeros at the left |
| Decimal.PadTwoValue | src/components/DAWWorkspace.tsx:36-37 | padding a numeral below 100 keeps it all digits and keeps its value |
| Decimal.LastDigit | src/components/DAWWorkspace.tsx:37 | a numeral ends in the units digit of its number |
| Mixer.TrackMixer.constructor | src/components/TrackMixer.tsx:24 | the mixer's state starts as a copy of the `tracks` prop, and is valid (distinct ids, in-range values) exactly when the prop is |
| Mixer.TrackMixer.UpdateTrack | src/components/TrackMixer.tsx:26-32 | the new list is `UpdateTracks(old list, id, updates)` |
| Mixer.Merge | src/components/TrackMixer.tsx:29 | `{ ...track, ...updates }`; `MergeNoChange`, `MergeIdempotent` and `MergeCombine` state its algebra, and `UpdateTracks` applies it to the matching track |
| Mixer.TrackMixer.SetVolume | src/components/TrackMixer.tsx:63-69 | the volume slider of a row updates that row's id with only `volume`; an in-range value keeps the mixer valid |
| Mixer.TrackMixer.SetPan | src/components/TrackMixer.tsx:78-85 | the pan slider of a row updates that row's id with only `pan`; an in-range value keeps the mixer valid |
| Mixer.TrackMixer.ToggleMute | src/components/TrackMixer.tsx:93 | the mute button updates with `muted: !muted`; with distinct ids only that row's `muted` flips; the mixer stays valid |
| Mixer.TrackMixer.ToggleSolo | src/components/TrackMixer.tsx:103 | the solo button updates with `solo: !solo`; with distinct ids only that row's `solo` flips; the mixer stays valid |
| Mixer.UpdateTracks | src/components/TrackMixer.tsx:26-32 | length and order are kept; a track with the id gets the given fields and keeps the rest; other tracks are unchanged; an unknown id is a no-op |
| Mixer.MergeNoChange | src/components/TrackMixer.tsx:29 | spreading an empty partial record changes nothing |
| Mixer.MergeIdempotent | src/components/TrackMixer.tsx:29 | spreading the same partial record twice is spreading it once |
| Mixer.MergeCombine | src/components/TrackMixer.tsx:29 | two successive spreads equal one spread of the combined partial record |
| Mixer.UpdateOne | src/components/TrackMixer.tsx:26-32 | with distinct ids, updating a track by its id changes that track alone and keeps the ids distinct |
| Mixer.MuteFlipsOnlyMuted | src/components/TrackMixer.tsx:93 | the mute button flips only that track's `muted`; every other field and track is unchanged |
| Mixer.SoloFlipsOnlySolo | src/components/TrackMixer.tsx:103 | the solo button flips only that track's `solo`; every other field and track is unchanged |
| Mixer.MuteTwiceRestores | src/components/TrackMixer.tsx:93 | pressing mute twice on the same track restores the list |
| Mixer.SlidersKeepRanges | src/components/TrackMixer.tsx:63-85 | in-range volume and pan writes, and the mute and solo buttons, keep every track in 0..100 volume and -50..50 pan |
| Mixer.PanLabel | src/components/TrackMixer.tsx:76 | the label is "C" exactly at centre and starts with R exactly when right and with L exactly when left |
| Mixer.PanLabelRoundTrip | src/components/TrackMixer.tsx:76 | the label reads back as the pan value, so the magnitude after R or L is printed exactly |
| Mixer.PanLabelInjective | src/components/TrackMixer.tsx:76 | different pan values always get different labels |
| Effects.Rack.constructor | src/components/EffectsRack.tsx:18-54 | the rack starts with the initial table, which is well formed and in range |
| Effects.Rack.Toggle | src/components/EffectsRack.tsx:56-62 | the new list is `ToggleEffect(old, id)`; ids and parameter names stay distinct and values stay in range |
| Effects.Rack.SetParameter | src/components/EffectsRack.tsx:64-72 | the new list is `UpdateParameter(old, id, name, value)` for a slider value; the rack stays well formed and in range |
| Effects.Names | src/components/EffectsRack.tsx:115 | the keys come in table order, one per entry |
| Effects.Lookup | src/components/EffectsRack.tsx:14 | a key is absent exactly when it is not among the names; a found value belongs to an entry with that name |
| Effects.SetParam | src/components/EffectsRack.tsx:68 | after `{ ...parameters, [name]: value }` the name reads `value` and every other name reads as before |
| Effects.SetParamNames | src/components/EffectsRack.tsx:68 | the keys keep their order; a new key is appended at the end, and an existing one keeps its place |
| Effects.SetParamKeepsDistinct | src/components/EffectsRack.tsx:68 | setting a parameter never creates a repeated key |
| Effects.ToggleEffect | src/components/EffectsRack.tsx:56-62 | length and order are kept; the matching effect's `enabled` flips and the rest of it is kept; other effects are unchanged |
| Effects.UpdateParameter | src/components/EffectsRack.tsx:64-72 | length and order are kept; the matching effect's table gets the key set, with no clamping; other effects are unchanged |
| Effects.ToggleTwice | src/components/EffectsRack.tsx:59 | toggling the same id twice restores the list |
| Effects.UnknownIdIsNoOp | src/components/EffectsRack.tsx:57-70 | both edits leave the list unchanged for an id no effect has |
| Effects.UpdateParameterReadBack | src/components/EffectsRack.tsx:64-72 | the edited parameter reads the new value; other keys, `enabled`, id, name and type are unchanged |
| Effects.SliderRange | src/components/EffectsRack.tsx:124-125 | threshold runs from -60 to 0, time from 0 to 1000 and every other parameter from 0 to 100; the range is non-empty, ends at or below 0 exactly for threshold, starts at 0 exactly for the others, and ends at 1000 exactly for time |
| Effects.SetParamKeepsRange | src/components/EffectsRack.tsx:121-125 | a table within its slider ranges stays within them after a slider write |
| Effects.SliderEditKeepsRange | src/components/EffectsRack.tsx:121-125 | every table of the rack stays within its slider ranges after a slider write |
| Effects.InitialRack | src/components/EffectsRack.tsx:18-54 | five effects with ids 1..5, enabled exactly when named EQ or Reverb |
| Effects.InitialEffects | src/components/EffectsRack.tsx:18-54 | the initial rack; `InitialRack` states its ids and enabled flags and `InitialParameters` its distinct keys and in-range values |
| Effects.InitialParameters | src/components/EffectsRack.tsx:18-54 | each initial table has distinct keys, and every initial value lies inside its slider's range |
| Effects.EditsKeepValid | src/components/EffectsRack.tsx:56-72 | both edits keep effect ids and parameter names distinct |
| Timeline.TimelineView.constructor | src/components/Timeline.tsx:23-24 | zoom starts at 1 and the grid is shown |
| Timeline.TimelineView.ZoomOut | src/components/Timeline.tsx:54 | the zoom becomes `max(0.5, zoom - 0.25)`; it stays within 0.5..3 and the grid is unchanged |
| Timeline.TimelineView.ZoomIn | src/components/Timeline.tsx:63 | the zoom becomes `min(3, zoom + 0.25)`; it stays within 0.5..3 and the grid is unchanged |
| Timeline.TimelineView.ToggleGrid | src/components/Timeline.tsx:71 | the grid switch flips and the zoom is unchanged |
| Timeline.TimelineView.Percent | src/components/Timeline.tsx:54-63 | the zoom read-out of the current view is `ZoomPercent` of its quarters and equals zoom·100 exactly |
| Timeline.ZoomOutQuarters | src/components/Timeline.tsx:54 | in quarters, equals `max(0.5, zoom - 0.25)` and is never below 2 quarters |
| Timeline.ZoomInQuarters | src/components/Timeline.tsx:63 | in quarters, equals `min(3, zoom + 0.25)` and is never above 12 quarters |
| Timeline.ZoomInOutInverse | src/components/Timeline.tsx:54-63 | away from the ends of the range, zoom in undoes zoom out and zoom out undoes zoom in |
| Timeline.ZoomPercent | src/components/Timeline.tsx:23-63 | for any reachable zoom, zoom·100 is a whole number in {50, 75, …, 300} |
| Timeline.TimelineWidth | src/components/Timeline.tsx:36 | 800 · zoom, with zoom = quarters / 4; `GridLines`, `GridOffset` and `ClipInsideTimeline` state that grid lines and clip boxes lie within it |
| Timeline.GridLines | src/components/Timeline.tsx:104-112 | 128 lines when shown and none when hidden; every line lies within the timeline's width |
| Timeline.GridOffset | src/components/Timeline.tsx:110 | a grid line's offset lies in `[0, width)` |
| Timeline.GridSpacing | src/components/Timeline.tsx:106-110 | neighbouring grid lines are one 128th of the width apart |
| Timeline.MockClipsFit | src/components/Timeline.tsx:27-38 | every mock clip starts at or after 0 and ends by second 32 |
| Timeline.MockClipTracks | src/components/Timeline.tsx:27-34 | every mock clip belongs to one of tracks 1..5 |
| Timeline.MockClips | src/components/Timeline.tsx:27-34 | the mock clip table; `MockClipsFit` and `MockClipTracks` state that every clip lies within the 32 seconds and belongs to tracks 1..5 |
| Timeline.ClipPosition | src/components/Timeline.tsx:40-43 | `getClipPosition`: left and width proportional to start and duration over 32 seconds; `ClipInsideTimeline` and `ClipsAbut` state its properties |
| Timeline.ClipInsideTimeline | src/components/Timeline.tsx:36-43 | a clip inside the 32 seconds is drawn inside the timeline's width |
| Timeline.ClipsAbut | src/components/Timeline.tsx:40-43 | a clip's box ends exactly where a box starting at its end time begins |
| Timeline.ClipsOnLane | src/components/Timeline.tsx:137-138 | a lane holds exactly the clips with the lane's track id |
| Timeline.ClipsOnLaneAppend | src/components/Timeline.tsx:137-138 | the filter keeps table order: it distributes over concatenation |
| Timeline.Lanes | src/components/Timeline.tsx:117-138 | one lane per track; clip c is in lane k exactly when c's track id is track k's id |
| Timeline.LanesPartitionClips | src/components/Timeline.tsx:117-138 | with distinct track ids covering every clip, each clip is in exactly one lane |
| MiningCard.MinerCard.constructor | src/components/MiningCard.tsx:29-31 | the card starts with no progress and no blocks |
| MiningCard.MinerCard.SetActive | src/components/MiningCard.tsx:33-45 | a change of `isActive` is `Switched(old, active)`; progress stays in [0, 100) |
| MiningCard.MinerCard.Tick | src/components/MiningCard.tsx:35-40 | one interval firing is `TickStep(old, r1, r2)`; progress stays in [0, 100) and blocks never decrease |
| MiningCard.Remainder100 | src/components/MiningCard.tsx:36 | JavaScript's `% 100` on a non-negative number lies in [0, 100) and is exact below 100 and between 100 and 200 |
| MiningCard.TickStep | src/components/MiningCard.tsx:35-40 | one interval firing, gated on active; `TickKeepsValid`, `TickAdvancesProgress` and `TickBlocks` state its properties |
| MiningCard.Switched | src/components/MiningCard.tsx:33-45 | the effect of a change of `isActive`; `SwitchOffOn` and `SwitchKeepsValid` state its properties |
| MiningCard.TickKeepsValid | src/components/MiningCard.tsx:36 | with r1 in [0,1) a tick keeps progress in [0, 100), and at 0 while inactive |
| MiningCard.TickAdvancesProgress | src/components/MiningCard.tsx:36 | an active tick adds 2·r1 to progress, minus 100 exactly when the sum reaches 100 |
| MiningCard.TickBlocks | src/components/MiningCard.tsx:34-39 | a tick adds one block exactly when active and r2 < 0.1, otherwise none |
| MiningCard.SwitchOffOn | src/components/MiningCard.tsx:42-44 | going inactive resets progress and keeps blocks; going active again starts from zero progress with the same blocks |
| MiningCard.SwitchKeepsValid | src/components/MiningCard.tsx:33-45 | switching either way keeps the state reachable |
| MiningCard.TickCountAppend | src/components/MiningCard.tsx:35-40 | the interval firings of two runs in a row add up: the count distributes over concatenation |
| MiningCard.RunAppend | src/components/MiningCard.tsx:33-45 | running two sequences of events equals running their concatenation |
| MiningCard.RunInvariantSplit | src/components/MiningCard.tsx:33-45 | over two runs in a row, blocks grow by at most one per tick of the combined run, and progress stays in [0, 100) |
| MiningCard.TickCount | src/components/MiningCard.tsx:35-40 | the number of firings in a run is at most its length, and equal to it exactly when every event is a firing |
| MiningCard.RunInvariant | src/components/MiningCard.tsx:33-45 | along any run of ticks and switches progress stays in [0, 100), and blocks never decrease and grow by at most one per tick |
| MiningCard.IdleTicksChangeNothing | src/components/MiningCard.tsx:34-44 | while inactive, no number of timer firings changes the card |
| MiningCard.GetHashRateUnit | src/components/MiningCard.tsx:47-55 | known coins get their table unit; any other id gets H/s, and exactly those do |
| MiningCard.View | src/components/MiningCard.tsx:81-154 | the state-dependent read-outs of a card; `SwitchedOffView` and `ActiveView` state them for an inactive and an active card |
| MiningCard.SwitchedOffView | src/components/MiningCard.tsx:85-154 | an inactive card shows "0.00 H/s", "$0.00/day", IDLE, a Start button, no progress bar, and keeps its block count |
| MiningCard.ActiveView | src/components/MiningCard.tsx:85-154 | an active card shows its hash rate in its unit, its profit, MINING, and a progress bar in [0, 100) |
| MiningControls.SubsetSize | src/components/MiningControls.tsx:12-13 | a subset is no larger than its superset, and equally large only when equal |
| MiningControls.ActiveKeysBounds | src/components/MiningControls.tsx:12-13 | the active keys number at most the keys; as many exactly when all are true; more than none exactly when one is true |
| MiningControls.ActiveCount | src/components/MiningControls.tsx:12-13 | `0 ≤ active ≤ total`; equal to the total exactly when all run; positive exactly when some runs |
| MiningControls.TotalMiners | src/components/MiningControls.tsx:13 | `Object.keys(miningStatus).length`; `ActiveCount` and `AllActive` state its relation to the active count |
| MiningControls.AllActive | src/components/MiningControls.tsx:14 | true exactly when every miner runs, so an empty record counts as all active |
| MiningControls.SomeActive | src/components/MiningControls.tsx:15 | true exactly when some miner runs |
| MiningControls.StartAllClick | src/components/MiningControls.tsx:28-31 | "Start All" sends `true`, and is disabled exactly when all run |
| MiningControls.StopAllClick | src/components/MiningControls.tsx:38-41 | "Stop All" sends `false`, and is enabled exactly when some runs |
| MiningControls.BulkButtons | src/components/MiningControls.tsx:14-40 | a non-empty record enables at least one bulk button and an empty one enables neither; both are enabled exactly when some but not all run |
| MiningControls.BulkResults | src/components/MiningControls.tsx:12-15 | after every miner is switched on all count as active; after all are switched off none does and the total is unchanged |

## Left out

- Rendering: JSX, CSS classes, icons and the UI widgets (Slider, Switch, Card, Badge, Progress) are not modelled. The view model covers only the values a card displays.
- The slider widget's own clamping to its min and max belongs to widget code that is not part of this model. The model states what the handlers do with a value in range (`Mixer.SlidersKeepRanges`, `Effects.SliderEditKeepsRange`). `Effects.UpdateParameter` itself accepts any value, as the source does.
- Timers: `setInterval` / `clearInterval` are not modelled. One interval firing is a transition (`MiningCard.TickStep`) that takes the two `Math.random()` draws as parameters. "No interval while inactive" is a gate on that transition.
- Floating point: progress, zoom and pixel offsets are exact reals. IEEE rounding is not modelled, and neither is `toFixed` (the progress percentage and the hash rate printed with two decimals). `MiningCard.Reading` keeps the hash rate as a number with its unit.
- Workspace.SkipsForward: positions, minutes and pan magnitudes are unbounded integers in the model. In the source they are JavaScript doubles: `currentTime + 10` is exact only below 2^53, and numbers from 1e21 on print in exponent form (`1e+21`), which `Decimal.Show` never produces. Neither is modelled, because no plausible number of button presses reaches those values.
- Effects.Rack.SetParameter: parameter sliders are rendered only for enabled effects (src/components/EffectsRack.tsx:113-131), but the method also accepts an edit to a disabled effect. This over-approximates what the interface can send; every property stated holds for the larger set of edits.
- Workspace.FormatTime: defined on non-negative integers only. The position starts at 0 and only ever changes by whole tens, clamped at 0, so no other value reaches it. The behaviour on fractional or negative input is not modelled.
- The BPM input is not modelled. It parses text with `Number()`, and its `min`/`max` attributes are not enforced by the handler.
- The ruler marks (`i` seconds for 0..32) and the playhead offset are not modelled. They use the same proportional formula as `Timeline.ClipPosition`.
- Volume, pan and effect parameter values are integers. The sliders step by 1 from integer bounds and every initial value is an integer.
- Effects.Names: a parameter table keeps its keys in insertion order. JavaScript lists integer-like keys first, and no key here is integer-like, so that ordering rule is not modelled.
- StatsOverview.tsx and pages/Index.tsx (presentation and composition only) are not part of this model. Neither is the parent that owns the miners' status record, with its `onToggleAll` and per-card toggle handlers and its aggregate totals. `MiningControls.StartAllClick` / `StopAllClick` state what a click sends, and `MiningControls.BulkResults` states the counts after the parent honours it.
