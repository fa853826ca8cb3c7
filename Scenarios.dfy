/**
 * Whole sequences of events on a freshly loaded controller, each with the
 * outcome its contracts promise: the view loads, a player appears, its item
 * reports a status, the user presses buttons, drags and taps, and the timer
 * fires.
 */
module Scenarios {
  import opened InOut
  import opened Controller

  /** Starting the timer twice leaves one timer; stopping twice leaves none. */
  method TimerStartStopIdempotent() returns (afterStarts: nat, afterStops: nat, afterDisappear: nat)
    ensures afterStarts == 1 && afterStops == 0 && afterDisappear == 0
  {
    var c := new VideoViewController.ViewDidLoad();
    c.TryStartVideoSliderValueTimer();
    c.TryStartVideoSliderValueTimer();
    afterStarts := c.liveTimers;
    c.StopVideoSliderValueTimer();
    c.StopVideoSliderValueTimer();
    afterStops := c.liveTimers;
    c.TryStartVideoSliderValueTimer();
    c.ViewDidDisappear();
    c.ViewDidDisappear();
    afterDisappear := c.liveTimers;
  }

  /** Pressing play twice and then pause twice sends one play and one pause. */
  method PlayPauseGuards() returns (commands: seq<Command>)
    ensures commands == [Command.Play, Command.Pause]
  {
    var c := new VideoViewController.ViewDidLoad();
    c.OnPlay();
    c.OnPause();
    var p := new Player();
    c.ViewDidAppear(p);
    c.OnPlay();
    c.OnPlay();
    c.OnPause();
    c.OnPause();
    commands := p.commands;
  }

  /**
   * Controls stay disabled through unknown and failed statuses and are enabled
   * on ready; the full-track range then plays from 0 to the duration.
   */
  method ReadyEnablesControls()
    returns (enabledBefore: bool, enabledAfterUnknown: bool, enabledAfterFailed: bool, enabledAfterReady: bool,
             sequence: Option<PlaySequence>, commands: seq<Command>, timer: bool)
    ensures !enabledBefore && !enabledAfterUnknown && !enabledAfterFailed && enabledAfterReady
    ensures sequence == Some(PlaySequence(0.0, 100.0))
    ensures commands == [Seek(0.0)] && timer
  {
    var c := new VideoViewController.ViewDidLoad();
    enabledBefore := c.sliderEnabled || c.playEnabled || c.pauseEnabled;
    var p := new Player();
    c.ViewDidAppear(p);
    c.ObserveStatus(Unknown);
    enabledAfterUnknown := c.sliderEnabled || c.playEnabled || c.pauseEnabled;
    c.ObserveStatus(Failed);
    enabledAfterFailed := c.sliderEnabled || c.playEnabled || c.pauseEnabled;
    c.ObserveStatus(ReadyToPlay(100.0));
    enabledAfterReady := c.sliderEnabled && c.playEnabled && c.pauseEnabled;
    sequence := c.currPlayingSequence;
    commands := p.commands;
    timer := c.timerRunning;
  }

  /**
   * Two ranges, 20%-40% and 60%-80%, on a 1000-pixel bar over a 100-second
   * video: a tap at pixel 900 is 500 away from the first range and 100 from
   * the second, so the second becomes active and playback jumps to 60 s.
   */
  method TapSelectsNearest() returns (firstActive: bool, secondActive: bool, sequence: Option<PlaySequence>, lastCommand: Command)
    ensures !firstActive && secondActive
    ensures sequence == Some(PlaySequence(60.0, 80.0))
    ensures lastCommand == Seek(60.0)
  {
    var c, p := DrawnTwoRanges();
    var first, second := c.collection.ranges[0], c.collection.ranges[1];
    assert first.Distance(900.0) == Some(500.0);
    assert second.Distance(900.0) == Some(100.0);
    assert !c.collection.IsLastNearest(0, 900.0);
    c.OnSliderTap(900.0);
    firstActive, secondActive := first.isActive, second.isActive;
    sequence := c.currPlayingSequence;
    lastCommand := p.commands[|p.commands| - 1];
  }

  /**
   * A loaded controller whose 100-second video is ready, with the two demo
   * ranges 20%-40% and 60%-80% drawn on a 1000-pixel bar.
   */
  method DrawnTwoRanges() returns (c: VideoViewController, p: Player)
    ensures fresh(c) && fresh(p) && c.player == p && c.Valid() && c.sliderMaximum == 100.0
    ensures c.sliderCollection == c.collection
    ensures |c.collection.ranges| == 2 && c.collection.ranges[0] != c.collection.ranges[1]
    ensures fresh(c.collection.ranges[0]) && fresh(c.collection.ranges[1])
    ensures c.collection.ranges[0].from == 0.2 && c.collection.ranges[0].to == 0.4
    ensures c.collection.ranges[1].from == 0.6 && c.collection.ranges[1].to == 0.8
    ensures c.collection.ranges[0].bounds == Some(Span(200.0, 400.0))
    ensures c.collection.ranges[1].bounds == Some(Span(600.0, 800.0))
  {
    c := new VideoViewController.ViewDidLoad();
    p := new Player();
    c.ViewDidAppear(p);
    c.ObserveStatus(ReadyToPlay(100.0));
    c.MultipleSequenceClick();
    var painted := c.sliderCollection.Draw(Rect(0.0, 0.0, 1000.0, 30.0));
    assert c.collection.ranges[0].DrawnAt(1000.0) && c.collection.ranges[1].DrawnAt(1000.0);
  }

  /**
   * The 20%-80% range of a 10-second video plays from 2 s to 8 s. Ticks that
   * observe positions 1, 3, 8 and 8.1 seek back to 2 s at 8 (the end itself)
   * and again at 8.1.
   */
  method LoopBack() returns (commands: seq<Command>)
    ensures commands == [Seek(0.0), Seek(2.0), Seek(2.0), Seek(2.0)]
  {
    var c, p := PlayingOneSequence();
    p.currentTime := 1.0;
    c.Tick();
    assert p.commands == [Seek(0.0), Seek(2.0)];
    p.currentTime := 3.0;
    c.Tick();
    assert p.commands == [Seek(0.0), Seek(2.0)];
    p.currentTime := 8.0;
    c.Tick();
    assert p.commands == [Seek(0.0), Seek(2.0), Seek(2.0)];
    p.currentTime := 8.1;
    c.Tick();
    commands := p.commands;
  }

  /**
   * A loaded controller whose 10-second video is ready and whose 20%-80%
   * range is selected, with the commands this sent to the player.
   */
  method PlayingOneSequence() returns (c: VideoViewController, p: Player)
    ensures fresh(c) && fresh(p) && c.player == p && c.Valid() && c.timerRunning
    ensures c.currPlayingSequence == Some(PlaySequence(2.0, 8.0))
    ensures p.commands == [Seek(0.0), Seek(2.0)]
  {
    c := new VideoViewController.ViewDidLoad();
    p := new Player();
    c.ViewDidAppear(p);
    c.ObserveStatus(ReadyToPlay(10.0));
    assert p.commands == [Seek(0.0)] && c.sliderMaximum == 10.0;
    c.OneSequenceClick();
  }

  /** A drag that ends at 42 s seeks there; the timer is off during the drag and back on after it. */
  method DragSeeks() returns (timerDuringDrag: bool, timerAfterDrag: bool, lastCommand: Command)
    ensures !timerDuringDrag && timerAfterDrag && lastCommand == Seek(42.0)
  {
    var c := new VideoViewController.ViewDidLoad();
    var p := new Player();
    c.ViewDidAppear(p);
    c.ObserveStatus(ReadyToPlay(100.0));
    c.OnSliderTouchDown();
    timerDuringDrag := c.timerRunning;
    c.VideoSliderValueChanged(42.0);
    timerAfterDrag := c.timerRunning;
    lastCommand := p.commands[|p.commands| - 1];
  }
}
