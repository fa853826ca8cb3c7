/**
 * The video view controller: it keeps playback looping inside the active
 * in/out range, polls the player on a repeating timer, and reacts to the
 * play/pause buttons, to dragging and tapping the scrub bar, to the player
 * item's status and to the demo buttons that swap the range collection.
 *
 * The player is an abstract object with a rate, a current time and the log of
 * commands the controller sent it. The repeating timer is a flag plus the
 * count of timers scheduled on the run loop; each firing is a call to `Tick`.
 */
module Controller {
  import opened InOut

  /** A transport command sent to the player. */
  datatype Command = Play | Pause | Seek(to: real)

  /** The player item's status as the status observer receives it. */
  datatype Status = ReadyToPlay(duration: real) | Failed | Unknown

  /** The media player: playback rate (0 when paused), position, commands received. */
  class Player {
    var rate: real
    var currentTime: real
    var commands: seq<Command>

    constructor ()
      ensures rate == 0.0 && currentTime == 0.0 && commands == []
    {
      rate := 0.0;
      currentTime := 0.0;
      commands := [];
    }

    method Play()
      modifies this`rate, this`commands
      ensures rate == 1.0 && commands == old(commands) + [Command.Play]
    {
      rate := 1.0;
      commands := commands + [Command.Play];
    }

    method Pause()
      modifies this`rate, this`commands
      ensures rate == 0.0 && commands == old(commands) + [Command.Pause]
    {
      rate := 0.0;
      commands := commands + [Command.Pause];
    }

    /** Requests a seek; the position moves later, as playback reports it. */
    method Seek(to: real)
      modifies this`commands
      ensures commands == old(commands) + [Command.Seek(to)]
    {
      commands := commands + [Command.Seek(to)];
    }
  }

  /**
   * Between the two states, `p` (when there is one) received exactly `cmds`
   * and its rate and position did not change.
   */
  twostate predicate Sent(p: Player?, cmds: seq<Command>)
    reads p
  {
    p != null ==>
      p.commands == old(p.commands) + cmds && p.rate == old(p.rate) && p.currentTime == old(p.currentTime)
  }

  class VideoViewController {
    var player: Player?
    /** A valid slider-update timer is scheduled. */
    var timerRunning: bool
    /** Repeating timers scheduled on the run loop and not yet invalidated. */
    var liveTimers: nat
    var collection: InOutVideoRangeCollection
    var currPlayingSequence: Option<PlaySequence>
    /** The scrub bar: its value, maximum, the collection it draws, and its flags. */
    var sliderValue: real
    var sliderMaximum: real
    var sliderCollection: InOutVideoRangeCollection?
    var sliderContinuous: bool
    var sliderEnabled: bool
    var playEnabled: bool
    var pauseEnabled: bool

    /**
     * Exactly one timer is scheduled while the timer runs and none otherwise;
     * the ranges' colours mirror their flags and at most one range is active;
     * the bar, once it holds a collection, holds the controller's collection.
     */
    ghost predicate Valid()
      reads this`liveTimers, this`timerRunning, this`collection, this`sliderCollection,
        collection.ranges`isActive, collection.ranges`fillColor
    {
      liveTimers == (if timerRunning then 1 else 0) &&
      (sliderCollection == null || sliderCollection == collection) &&
      collection.Valid() && collection.AtMostOneActive()
    }

    /** The slider, buttons and first collection as the view has just loaded. */
    constructor ViewDidLoad()
      ensures Valid() && fresh(collection) && fresh(collection.ranges)
      ensures player == null && !timerRunning && liveTimers == 0
      ensures currPlayingSequence == None && sliderCollection == null
      ensures |collection.ranges| == 1 && collection.ranges[0].from == 0.0 && collection.ranges[0].to == 1.0
      ensures collection.ranges[0].bounds == None
      ensures sliderValue == 0.0 && sliderMaximum == 1.0 && !sliderContinuous
      ensures !sliderEnabled && !playEnabled && !pauseEnabled
    {
      var range := new InOutVideoRange(0.0, 1.0);
      collection := new InOutVideoRangeCollection([range]);
      player := null;
      timerRunning := false;
      liveTimers := 0;
      currPlayingSequence := None;
      sliderMaximum := 1.0; // a slider's default maximum
      sliderCollection := null;
      new;
      InitControlButtons();
    }

    method InitControlButtons()
      modifies this`sliderValue, this`sliderContinuous, this`sliderEnabled, this`playEnabled, this`pauseEnabled
      ensures sliderValue == 0.0 && !sliderContinuous
      ensures !sliderEnabled && !playEnabled && !pauseEnabled
    {
      sliderValue := 0.0;
      sliderContinuous := false;
      sliderEnabled := false;
      playEnabled := false;
      pauseEnabled := false;
    }

    method ActivateControlButtons()
      modifies this`sliderEnabled, this`playEnabled, this`pauseEnabled
      ensures sliderEnabled && playEnabled && pauseEnabled
    {
      sliderEnabled := true;
      playEnabled := true;
      pauseEnabled := true;
    }

    /** The view appeared and a player for the sample video was created. */
    method ViewDidAppear(newPlayer: Player)
      modifies this`player
      ensures player == newPlayer
    {
      player := newPlayer;
    }

    /** The view went away: the timer is invalidated and dropped. */
    method ViewDidDisappear()
      requires Valid()
      modifies this`timerRunning, this`liveTimers
      ensures Valid() && !timerRunning && liveTimers == 0
    {
      if timerRunning {
        liveTimers := liveTimers - 1;
        timerRunning := false;
      }
    }

    // ---------------------------------------------------------------- timer

    /** Schedules the repeating slider-update timer unless a valid one exists. */
    method TryStartVideoSliderValueTimer()
      requires Valid()
      modifies this`timerRunning, this`liveTimers
      ensures Valid() && timerRunning && liveTimers == 1
      ensures old(timerRunning) ==> liveTimers == old(liveTimers)
    {
      if timerRunning {
        return;
      } else {
        timerRunning := true;
        liveTimers := liveTimers + 1;
      }
    }

    /** Invalidates and drops the timer; harmless when there is none. */
    method StopVideoSliderValueTimer()
      requires Valid()
      modifies this`timerRunning, this`liveTimers
      ensures Valid() && !timerRunning && liveTimers == 0
    {
      if timerRunning {
        liveTimers := liveTimers - 1;
      }
      timerRunning := false;
    }

    /**
     * One firing of the timer: the slider shows the player's position, and
     * when that position has reached the end of the playing sequence the
     * player is sent back to the sequence's start.
     */
    method Tick()
      requires Valid() && timerRunning
      modifies this`sliderValue, player
      ensures Valid()
      ensures player == null ==> sliderValue == old(sliderValue)
      ensures player != null ==> sliderValue == player.currentTime
      ensures currPlayingSequence.Some? && player != null && currPlayingSequence.value.end <= player.currentTime ==>
        Sent(player, [Seek(currPlayingSequence.value.start)])
      ensures currPlayingSequence.None? || player == null || player.currentTime < currPlayingSequence.value.end ==>
        Sent(player, [])
    {
      if player == null {
        return;
      }
      sliderValue := player.currentTime;
      if currPlayingSequence.None? {
        return;
      }
      if sliderValue >= currPlayingSequence.value.end {
        player.Seek(currPlayingSequence.value.start);
      }
    }

    // ---------------------------------------------------------------- player

    method PlayerSeek(to: real)
      modifies player
      ensures Sent(player, [Seek(to)])
    {
      if player != null {
        player.Seek(to);
      }
    }

    /** The play button: starts the player only when it is paused. */
    method OnPlay()
      modifies player
      ensures player != null && old(player.rate) == 0.0 ==>
        player.rate == 1.0 && player.commands == old(player.commands) + [Play] && player.currentTime == old(player.currentTime)
      ensures player == null || old(player.rate) != 0.0 ==> Sent(player, [])
    {
      if player != null && player.rate == 0.0 {
        player.Play();
      }
    }

    /** The pause button: pauses the player only when it is playing. */
    method OnPause()
      modifies player
      ensures player != null && old(player.rate) != 0.0 ==>
        player.rate == 0.0 && player.commands == old(player.commands) + [Pause] && player.currentTime == old(player.currentTime)
      ensures player == null || old(player.rate) == 0.0 ==> Sent(player, [])
    {
      if player != null && player.rate != 0.0 {
        player.Pause();
      }
    }

    // ---------------------------------------------------------------- slider

    /** A drag on the scrub bar began: the timer stops so it cannot fight the drag. */
    method OnSliderTouchDown()
      requires Valid()
      modifies this`timerRunning, this`liveTimers
      ensures Valid() && !timerRunning && liveTimers == 0
    {
      StopVideoSliderValueTimer();
    }

    /** The drag ended at `value`: the player seeks there and the timer resumes. */
    method VideoSliderValueChanged(value: real)
      requires Valid()
      modifies this`sliderValue, this`timerRunning, this`liveTimers, player
      ensures Valid() && timerRunning && sliderValue == value
      ensures Sent(player, [Seek(value)])
    {
      sliderValue := value;
      PlayerSeek(sliderValue);
      TryStartVideoSliderValueTimer();
    }

    /**
     * A tap at `x` on the scrub bar: the drawn range nearest to it becomes the
     * only active one, its play sequence is computed from the slider's maximum,
     * the player seeks to its start and the timer runs. Some range must have
     * been drawn, since the nearest range is unwrapped unconditionally.
     */
    method OnSliderTap(x: real)
      requires Valid() && collection.AnyDrawn()
      modifies this`currPlayingSequence, this`timerRunning, this`liveTimers, collection.ranges`isActive, collection.ranges`fillColor, player
      ensures Valid() && timerRunning
      ensures exists k :: (collection.IsLastNearest(k, x) && collection.ranges[k].isActive &&
        currPlayingSequence == Some(collection.ranges[k].GetPlaySequence(sliderMaximum)))
      ensures currPlayingSequence.Some? && Sent(player, [Seek(currPlayingSequence.value.start)])
    {
      var range := collection.LookupForNearestRange(x);
      ghost var k :| collection.IsLastNearest(k, x) && collection.ranges[k] == range;
      Select(range);
      TryStartVideoSliderValueTimer();
      assert collection.IsLastNearest(k, x) && collection.ranges[k].isActive;
    }

    /**
     * Makes `range` the collection's only active range, takes its play
     * sequence from the slider's maximum and seeks the player to its start.
     */
    method Select(range: InOutVideoRange)
      requires Valid()
      modifies this`currPlayingSequence, collection.ranges`isActive, collection.ranges`fillColor, player
      ensures Valid()
      ensures forall i :: 0 <= i < |collection.ranges| ==> collection.ranges[i].isActive == (collection.ranges[i] == range)
      ensures currPlayingSequence == Some(range.GetPlaySequence(sliderMaximum))
      ensures Sent(player, [Seek(range.GetPlaySequence(sliderMaximum).start)])
    {
      collection.SetActive(range);
      currPlayingSequence := Some(range.GetPlaySequence(sliderMaximum));
      PlayerSeek(currPlayingSequence.value.start);
    }

    // ---------------------------------------------------------------- setup

    /**
     * Selects the collection's first range, if any: it becomes the only active
     * one, its play sequence is computed from the slider's maximum and the
     * player seeks to its start. An empty collection changes nothing.
     */
    method TryMoveToFirstTrack()
      requires Valid()
      modifies this`currPlayingSequence, collection.ranges`isActive, collection.ranges`fillColor, player
      ensures Valid()
      ensures |collection.ranges| == 0 ==> currPlayingSequence == old(currPlayingSequence) && Sent(player, [])
      ensures |collection.ranges| > 0 ==> FirstSelected()
      ensures |collection.ranges| > 0 ==> Sent(player, [Seek(currPlayingSequence.value.start)])
    {
      var range := collection.First();
      if range == null {
        return;
      }
      Select(range);
    }

    /**
     * The first range is the only active one and the playing sequence is its
     * bounds scaled to the slider's maximum.
     */
    ghost predicate FirstSelected()
      reads this`collection, this`currPlayingSequence, this`sliderMaximum, collection.ranges`isActive
    {
      |collection.ranges| > 0 &&
      (forall i :: 0 <= i < |collection.ranges| ==>
        collection.ranges[i].isActive == (collection.ranges[i] == collection.ranges[0])) &&
      currPlayingSequence == Some(collection.ranges[0].GetPlaySequence(sliderMaximum))
    }

    /**
     * The player is ready: the slider's maximum becomes the duration before the
     * first range's sequence is computed from it, the timer runs and the slider
     * draws the current collection. Without a player nothing changes.
     */
    method SetupVideoPlayerAndSlider(duration: real)
      requires Valid()
      modifies this`sliderMaximum, this`timerRunning, this`liveTimers, this`sliderCollection,
        this`currPlayingSequence, collection.ranges`isActive, collection.ranges`fillColor, player
      ensures Valid()
      ensures player == null ==> unchanged(this) && unchanged(collection.ranges`isActive)
      ensures player != null ==> sliderMaximum == duration && timerRunning && sliderCollection == collection
      ensures player != null && |collection.ranges| == 0 ==>
        currPlayingSequence == old(currPlayingSequence) && Sent(player, [])
      ensures player != null && |collection.ranges| > 0 ==>
        FirstSelected() && Sent(player, [Seek(currPlayingSequence.value.start)])
    {
      if player == null {
        return;
      }
      sliderMaximum := duration;
      TryStartVideoSliderValueTimer();
      sliderCollection := collection;
      TryMoveToFirstTrack();
    }

    /**
     * The player item's status changed. Only ready-to-play sets the player up
     * and enables the controls; failed and unknown leave everything as it is.
     */
    method ObserveStatus(status: Status)
      requires Valid()
      modifies this`sliderMaximum, this`timerRunning, this`liveTimers, this`sliderCollection,
        this`currPlayingSequence, this`sliderEnabled, this`playEnabled, this`pauseEnabled,
        collection.ranges`isActive, collection.ranges`fillColor, player
      ensures Valid()
      ensures !status.ReadyToPlay? ==> unchanged(this) && unchanged(collection.ranges`isActive) && Sent(player, [])
      ensures status.ReadyToPlay? ==> sliderEnabled && playEnabled && pauseEnabled
      ensures status.ReadyToPlay? && player != null ==>
        sliderMaximum == status.duration && timerRunning && sliderCollection == collection
      ensures status.ReadyToPlay? && player != null && |collection.ranges| > 0 ==>
        FirstSelected() && Sent(player, [Seek(currPlayingSequence.value.start)])
      ensures status.ReadyToPlay? && player != null && |collection.ranges| == 0 ==>
        currPlayingSequence == old(currPlayingSequence) && Sent(player, [])
      ensures status.ReadyToPlay? && player == null ==>
        sliderMaximum == old(sliderMaximum) && timerRunning == old(timerRunning) && unchanged(collection.ranges`isActive) &&
        currPlayingSequence == old(currPlayingSequence) && sliderCollection == old(sliderCollection)
    {
      match status
      case ReadyToPlay(duration) =>
        SetupVideoPlayerAndSlider(duration);
        ActivateControlButtons();
      case Failed =>
        // the load-failure alert is presentation only
      case Unknown =>
    }

    // ---------------------------------------------------------------- demo

    /**
     * Replaces the collection with new ranges built from `bounds`, hands it to
     * the slider, activates its first range, computes that range's sequence
     * from the slider's maximum and seeks the player to its start.
     */
    method LoadDemoCollection(bounds: seq<(real, real)>)
      requires Valid() && |bounds| > 0
      modifies this`collection, this`sliderCollection, this`currPlayingSequence, player
      ensures Valid() && fresh(collection)
      ensures |collection.ranges| == |bounds|
      ensures forall i :: 0 <= i < |bounds| ==>
        fresh(collection.ranges[i]) && collection.ranges[i].bounds == None &&
        collection.ranges[i].from == bounds[i].0 && collection.ranges[i].to == bounds[i].1
      ensures sliderCollection == collection
      ensures FirstSelected()
      ensures Sent(player, [Seek(currPlayingSequence.value.start)])
    {
      var ranges: seq<InOutVideoRange> := [];
      var i := 0;
      while i < |bounds|
        invariant 0 <= i <= |bounds| && |ranges| == i
        invariant forall j :: 0 <= j < i ==>
          fresh(ranges[j]) && ranges[j].bounds == None && !ranges[j].isActive && ranges[j].Valid() &&
          ranges[j].from == bounds[j].0 && ranges[j].to == bounds[j].1
        invariant Sent(player, [])
      {
        var range := new InOutVideoRange(bounds[i].0, bounds[i].1);
        ranges := ranges + [range];
        i := i + 1;
      }
      collection := new InOutVideoRangeCollection(ranges);
      sliderCollection := collection;
      Select(collection.First());
    }

    /** Demo button: the whole video as one range. */
    method FullTrackClick()
      requires Valid()
      modifies this`collection, this`sliderCollection, this`currPlayingSequence, player
      ensures Valid() && fresh(collection) && sliderCollection == collection
      ensures forall i :: 0 <= i < |collection.ranges| ==> fresh(collection.ranges[i])
      ensures |collection.ranges| == 1 && collection.ranges[0].from == 0.0 && collection.ranges[0].to == 1.0
      ensures FirstSelected() && currPlayingSequence == Some(PlaySequence(0.0, sliderMaximum))
      ensures Sent(player, [Seek(0.0)])
    {
      LoadDemoCollection([(0.0, 1.0)]);
    }

    /** Demo button: one range from 20% to 80% of the video. */
    method OneSequenceClick()
      requires Valid()
      modifies this`collection, this`sliderCollection, this`currPlayingSequence, player
      ensures Valid() && fresh(collection) && sliderCollection == collection
      ensures forall i :: 0 <= i < |collection.ranges| ==> fresh(collection.ranges[i])
      ensures |collection.ranges| == 1 && collection.ranges[0].from == 0.2 && collection.ranges[0].to == 0.8
      ensures FirstSelected()
      ensures Sent(player, [Seek(0.2 * sliderMaximum)])
    {
      LoadDemoCollection([(0.2, 0.8)]);
    }

    /** Demo button: two ranges, 20%-40% and 60%-80% of the video. */
    method MultipleSequenceClick()
      requires Valid()
      modifies this`collection, this`sliderCollection, this`currPlayingSequence, player
      ensures Valid() && fresh(collection) && sliderCollection == collection
      ensures forall i :: 0 <= i < |collection.ranges| ==> fresh(collection.ranges[i])
      ensures |collection.ranges| == 2 && collection.ranges[0] != collection.ranges[1]
      ensures collection.ranges[0].from == 0.2 && collection.ranges[0].to == 0.4
      ensures collection.ranges[1].from == 0.6 && collection.ranges[1].to == 0.8
      ensures collection.ranges[0].bounds == None && collection.ranges[1].bounds == None
      ensures FirstSelected()
      ensures Sent(player, [Seek(0.2 * sliderMaximum)])
    {
      LoadDemoCollection([(0.2, 0.4), (0.6, 0.8)]);
    }
  }
}
