# In/out range scrub bar and loop-playback controller

A Dafny model of the core of a small iOS video player demo. The player's scrub
bar shows named in/out ranges of the video. A tap on the bar selects the drawn
range nearest to the tap. Playback then loops inside the active range: a
repeating timer polls the player's position and seeks back to the range's
start once the range's end is reached.

Three modules, one file each:

- `InOut.dfy` (module `InOut`) models `InOut.swift`.
  - `InOutVideoRange` is a class. Its fractional bounds `from`/`to` are
    constants. Its cached pixel extent, `isActive` flag and fill colour are
    fields. `Draw` caches the extent and returns the band it paints.
    `Distance` hit-tests a tap. `GetPlaySequence` scales the bounds to seconds.
  - `InOutVideoRangeCollection` is a class over a constant sequence of ranges.
    `Draw` draws every range in order. `SetActive` loops over the ranges and
    sets each one's flag by object identity. `LookupForNearestRange` fills a
    `map` from distance to range in a loop, then takes the key nearest to zero.
    `First` returns the first range.
- `Controller.dfy` (module `Controller`) models `VideoViewController.swift` as
  the class `VideoViewController`. Its fields are the player, the timer, the
  range collection, the playing sequence and the scrub bar's state: value,
  maximum, drawn collection and the enabled flags. Each handler is a method
  whose `modifies` clause names the fields it may change. The player is an
  abstract `Player` object with a `rate`, a `currentTime` and the log of
  `Play`/`Pause`/`Seek` commands it received. The timer is a flag plus the
  number of repeating timers still scheduled on the run loop. One firing of the
  timer is a call to `Tick`.
- `Scenarios.dfy` (module `Scenarios`) drives whole event sequences on a
  fresh controller and proves their outcome. They cover timer idempotence, the
  play/pause guards, enabling on ready, tap selection on two ranges, the
  loop-back and a drag.

Invariants kept by every controller method (`VideoViewController.Valid`):
- exactly one timer is scheduled while the timer runs, and none otherwise;
- every range's fill colour mirrors its `isActive` flag;
- at most one range is active;
- the bar holds no collection, or the controller's own collection.

Two behaviours of the code are worth stating on their own:
- Loop-back comparison. `Tick` compares with `>=`
  (DevVideoPlayer/VideoViewController.swift:271). A position exactly at the
  sequence end therefore already seeks back. `Scenarios.LoopBack` shows seeks
  at 8 and at 8.1 on the range from 2 s to 8 s.
- Tie-break. On equal distances the later range wins, because
  `distanceMap[distance]` is overwritten (DevVideoPlayer/InOut.swift:44).
  `LookupForNearestRange` states that rule, and `LastNearestUnique` shows that
  it picks a single position.

## Model

| member | source | states |
|---|---|---|
| `InOut.FillRect` | DevVideoPlayer/InOut.swift:101-104 | the painted band starts at `from*width` and ends at `to*width`; its height is 0.7 of the bar's; it is centred on the bar's vertical middle |
| `InOut.FillInsideBar` | DevVideoPlayer/InOut.swift:101-108 | with `0 <= from <= to <= 1` and a non-negative width, the band lies inside the bar, from left to right |
| `InOut.InOutVideoRange.constructor` | DevVideoPlayer/InOut.swift:80-97 | a new range keeps its bounds, is inactive and has no cached extent |
| `InOut.InOutVideoRange.SetIsActive` | DevVideoPlayer/InOut.swift:85-91 | setting `isActive` recolours the range, so the fill colour mirrors the flag |
| `InOut.InOutVideoRange.Draw` | DevVideoPlayer/InOut.swift:99-115 | draw caches `minX == from*width` and `maxX == to*width`, and paints the band in the range's current colour |
| `InOut.InOutVideoRange.Distance` | DevVideoPlayer/InOut.swift:117-133 | no distance exactly when never drawn; once drawn, never negative, even for `from > to`; zero exactly on a hit inside `[minX, maxX]` |
| `InOut.DistanceToExtent` | DevVideoPlayer/InOut.swift:122-132 | for an ordered extent, the distance is the gap to the nearest point of the extent: `minX - x` left of it, `x - maxX` right of it, and no point of the extent is closer |
| `InOut.InvertedNeverHit` | DevVideoPlayer/InOut.swift:122-132 | an extent drawn with `minX > maxX` is never hit: every tap is a positive distance away |
| `InOut.InOutVideoRange.GetPlaySequence` | DevVideoPlayer/InOut.swift:135-137 | the sequence's length is the range's fraction of the duration; `start <= end` when `from <= to` and the duration is non-negative; within `[0, duration]` when the bounds are within `[0, 1]` |
| `InOut.InOutVideoRangeCollection.constructor` | DevVideoPlayer/InOut.swift:14-18 | the collection holds the given ranges in the given order |
| `InOut.InOutVideoRangeCollection.Draw` | DevVideoPlayer/InOut.swift:20-24 | every range is drawn, in order, into the same rectangle; afterwards each caches its scaled bounds, and the i-th fill painted is the i-th range's band |
| `InOut.InOutVideoRangeCollection.SetActive` | DevVideoPlayer/InOut.swift:26-35 | afterwards a range is active exactly when it is the given object (identity); a non-member leaves all inactive; colours still mirror the flags and at most one range is active |
| `InOut.InOutVideoRangeCollection.LookupForNearestRange` | DevVideoPlayer/InOut.swift:37-52 | none exactly when no range has been drawn, which includes the empty collection; otherwise a drawn range no farther than any drawn range, and strictly nearer than every later drawn range, so among equal distances the later range wins |
| `InOut.LastNearestUnique` | DevVideoPlayer/InOut.swift:40-51 | the nearest-range rule is deterministic: at most one position satisfies it |
| `InOut.InOutVideoRangeCollection.First` | DevVideoPlayer/InOut.swift:54-56 | the first range, or none exactly when the collection is empty |
| `Controller.VideoViewController.ViewDidLoad` | DevVideoPlayer/VideoViewController.swift:120-131 | after loading: the collection is the full-track range, never drawn; no player, no timer, no playing sequence; slider value 0; controls disabled |
| `Controller.VideoViewController.InitControlButtons` | DevVideoPlayer/VideoViewController.swift:151-157 | slider value 0, not continuous; slider, play and pause disabled |
| `Controller.VideoViewController.ActivateControlButtons` | DevVideoPlayer/VideoViewController.swift:159-163 | slider, play and pause enabled |
| `Controller.VideoViewController.ViewDidAppear` | DevVideoPlayer/VideoViewController.swift:133-137 | the controller now holds the player created for the sample video |
| `Controller.VideoViewController.ViewDidDisappear` | DevVideoPlayer/VideoViewController.swift:139-147 | no timer is left, whether or not one was running |
| `Controller.VideoViewController.TryStartVideoSliderValueTimer` | DevVideoPlayer/VideoViewController.swift:254-260 | afterwards exactly one timer runs; when one was already running, no new timer is scheduled |
| `Controller.VideoViewController.StopVideoSliderValueTimer` | DevVideoPlayer/VideoViewController.swift:279-282 | no timer is left; safe when already stopped |
| `Controller.VideoViewController.Tick` | DevVideoPlayer/VideoViewController.swift:260-275 | only while the timer runs; without a player nothing changes; otherwise the slider shows the player's position, and a seek to the sequence's start is sent exactly when a sequence is set and the position is at or past its end |
| `Controller.VideoViewController.PlayerSeek` | DevVideoPlayer/VideoViewController.swift:249-252 | the player, if any, receives one seek to the requested time and nothing else changes |
| `Controller.VideoViewController.OnPlay` | DevVideoPlayer/VideoViewController.swift:36-40 | a play command is sent exactly when there is a player with rate 0; the rate then becomes 1 |
| `Controller.VideoViewController.OnPause` | DevVideoPlayer/VideoViewController.swift:42-46 | a pause command is sent exactly when there is a player with a non-zero rate; the rate then becomes 0 |
| `Controller.VideoViewController.OnSliderTouchDown` | DevVideoPlayer/VideoViewController.swift:48-50 | a drag start stops the timer |
| `Controller.VideoViewController.VideoSliderValueChanged` | DevVideoPlayer/VideoViewController.swift:52-55 | a drag end seeks to the slider's value, then the timer runs |
| `Controller.VideoViewController.OnSliderTap` | DevVideoPlayer/VideoViewController.swift:57-70 | needs a drawn range, because the lookup result is force-unwrapped; the nearest range (the later one on ties) becomes the only active range; the sequence is that range's bounds scaled by the slider's maximum; the player seeks to its start; the timer runs |
| `Controller.VideoViewController.Select` | DevVideoPlayer/VideoViewController.swift:62-67 | the given range becomes the only active one, the sequence is its bounds scaled by the slider's maximum, and the player receives one seek to the sequence's start |
| `Controller.VideoViewController.TryMoveToFirstTrack` | DevVideoPlayer/VideoViewController.swift:237-247 | an empty collection changes nothing; otherwise the first range becomes the only active one, the sequence comes from it and the player seeks to its start |
| `Controller.VideoViewController.SetupVideoPlayerAndSlider` | DevVideoPlayer/VideoViewController.swift:217-235 | without a player nothing changes; otherwise the slider's maximum becomes the duration before the first range's sequence is computed from it, the timer runs and the slider draws the current collection |
| `Controller.VideoViewController.ObserveStatus` | DevVideoPlayer/VideoViewController.swift:197-213 | only ready-to-play sets up the player and slider and enables the controls; failed and unknown change nothing, so controls stay disabled |
| `Controller.VideoViewController.LoadDemoCollection` | DevVideoPlayer/VideoViewController.swift:74-111 | a demo button replaces the collection with new, undrawn ranges built from its bounds and hands it to the slider; its first range becomes active, the sequence comes from it and the player seeks to its start |
| `Controller.VideoViewController.FullTrackClick` | DevVideoPlayer/VideoViewController.swift:74-85 | one range from 0 to 1; the sequence is `(0, maximum)` and the player seeks to 0 |
| `Controller.VideoViewController.OneSequenceClick` | DevVideoPlayer/VideoViewController.swift:87-98 | one range from 0.2 to 0.8, selected; the player seeks to 0.2 of the maximum |
| `Controller.VideoViewController.MultipleSequenceClick` | DevVideoPlayer/VideoViewController.swift:100-111 | two distinct ranges, 0.2-0.4 and 0.6-0.8, both undrawn; the first is selected and the player seeks to 0.2 of the maximum |
| `Scenarios.TimerStartStopIdempotent` | DevVideoPlayer/VideoViewController.swift:254-282 | two starts leave one timer; two stops, or two disappearances, leave none |
| `Scenarios.PlayPauseGuards` | DevVideoPlayer/VideoViewController.swift:36-46 | with no player the buttons do nothing; play, play, pause, pause sends exactly one play and one pause |
| `Scenarios.ReadyEnablesControls` | DevVideoPlayer/VideoViewController.swift:151-163 | controls are disabled after loading and stay disabled through unknown and failed; ready enables them, starts the timer and plays the full track over 100 s as `(0, 100)` |
| `Scenarios.TapSelectsNearest` | DevVideoPlayer/VideoViewController.swift:57-70 | on a 1000-pixel bar over a 100 s video, a tap at pixel 900 selects the 0.6-0.8 range (100 px away, against 500 px); the sequence becomes `(60, 80)` and playback seeks to 60 |
| `Scenarios.LoopBack` | DevVideoPlayer/VideoViewController.swift:271-274 | with the sequence `(2, 8)`, ticks at positions 1, 3, 8 and 8.1 seek back to 2 at 8 and again at 8.1, and at no other tick |
| `Scenarios.DragSeeks` | DevVideoPlayer/VideoViewController.swift:48-55 | the timer is off during a drag and on after it; the drag's end value is the last seek |

## Left out

- Asset loading and KVO plumbing are reduced to two inputs. `prepareToPlay` becomes `ViewDidAppear(player)`, with the player passed in. The status observer receives `ReadyToPlay(duration)`, `Failed` or `Unknown`. The context and key-path filtering, the `AVPlayerLayer` setup and the sample URL are not modelled.
- Seeks convert the target with `CMTimeMakeWithSeconds(..., 1)`, which rounds to whole seconds. That rounding belongs to the media framework. The model records the requested target.
- The player is abstract. `Play` sets the rate to 1 and `Pause` sets it to 0. A seek only logs its target, because the real seek completes asynchronously. The position is whatever playback reports, and the scenarios set it directly.
- `Timer` scheduling, its 0.1 s period and the `[unowned self]` capture are not modelled. The timer is a flag plus a count of scheduled timers. Each firing is an explicit `Tick`, which needs a running timer. A timer is invalidated only by this controller, so a timer that exists is always valid.
- Rendering is not modelled: `UIBezierPath` fills, the `UIColor` values (two colour states stand for them), `setNeedsDisplay` and the border chrome in `VideoSlider.swift`. `VideoSlider.draw` only forwards to the collection's `Draw`. The scenarios call `Draw` on the collection the slider holds (`sliderCollection`), as a redraw of the bar would.
- The scrub bar's own behaviour is not modelled. `UISlider` clamps the value it shows into `[minimum, maximum]`, and a tick stores the raw position. Its default maximum of 1 is used before the video is ready, since the interface file that could set another value is not part of this model.
- The load-failure alert and the tap gesture recogniser are not modelled. A tap is its x coordinate.
- `CGFloat`/`Float` rounding is not modelled. Coordinates and times are `real`, since the code only multiplies and compares them.
- The two optional fields `minX`/`maxX` of a range are one optional extent. `draw` is the only writer and always sets both, so the source's check for "either is set" equals "both are set".
- A tap with no drawn range crashes the source when it force-unwraps the lookup result. The model does not represent a crash. `OnSliderTap` requires a drawn range instead.
- `viewDidLoad` wires the tap gesture recogniser. The model leaves that out, since a tap is a direct call to `OnSliderTap`.
