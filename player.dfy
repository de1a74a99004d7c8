/** The audio-player screen: the timing milestones it derives from the stream of playback
    status snapshots (load, end of first buffering, first play), the fields it copies from
    each loaded snapshot, and the seek-hold protocol between the slider and the sound.
    Elapsed times and snapshots are inputs; the audio engine is represented only by the
    commands the screen issues to it. */
module Player {
  import opened Optional
  import MillisFormat

  // ---------------------------------------------------------------------------
  // Values
  // ---------------------------------------------------------------------------

  /** A playback status snapshot from the audio engine. A snapshot of a sound that is not
      loaded carries no buffering or playing flag, i.e. false. */
  datatype Status = Status(
    isLoaded: bool,
    isBuffering: bool,
    isPlaying: bool,
    positionMillis: nat,
    durationMillis: Option<nat>,
    volume: real,
    error: Option<string>)

  /** One status callback: the snapshot and the milliseconds elapsed since the last play or
      seek request. */
  datatype Update = Update(status: Status, elapsed: int)

  /** The screen's component state. Absent keys are None; `isPlaying` starts undefined,
      which reads as false. */
  datatype ScreenState = ScreenState(
    seek: real,
    volume: real,
    isLoaded: bool,
    isBuffering: bool,
    duration: Option<string>,
    isPlaying: bool,
    playbackInstancePosition: Option<nat>,
    playbackInstanceDuration: Option<nat>,
    initialLoadingTimestamp: Option<int>,
    initialBufferingTimestamp: Option<int>,
    initialPlayingTimestamp: Option<int>)

  const InitialState: ScreenState :=
    ScreenState(0.0, 1.0, false, true, None, false, None, None, None, None, None)

  /** What the status callback reads and writes: the previous snapshot, the two buffering
      latches, and the component state. */
  datatype Tracker = Tracker(
    prevStatus: Option<Status>,
    bufferingStarted: bool,
    bufferingEnded: bool,
    state: ScreenState)

  const InitialTracker: Tracker := Tracker(None, false, false, InitialState)

  /** Commands the screen sends to the audio engine. */
  datatype Command =
    | LoadAndPlay(progressUpdateIntervalMillis: nat, startPositionMillis: nat)
    | Resume
    | Pause
    | SetPosition(targetMillis: real)

  /** A recorded milestone counts as present when it is a non-zero number. */
  predicate Truthy(o: Option<int>)
  {
    o.Some? && o.value != 0
  }

  /** The `duration` text: `getMMSSFromMillis` of the reported duration, which for an
      undefined duration is the text of two NaN fields. */
  function DurationText(durationMillis: Option<nat>): string
  {
    match durationMillis
    case Some(d) => MillisFormat.GetMMSSFromMillis(d)
    case None => "NaN:NaN"
  }

  // ---------------------------------------------------------------------------
  // The status callback
  // ---------------------------------------------------------------------------

  /** `_onPlaybackStatusUpdate`, step by step as the source does it: the load milestone on a
      not-loaded -> loaded transition; the buffering latches and milestone; the first-play
      milestone on a not-playing -> playing transition while none is recorded; remember the
      snapshot; copy the playback fields of a loaded snapshot. */
  function StatusStep(t: Tracker, status: Status, elapsed: int): (r: Tracker)
    ensures r.prevStatus == Some(status)
    ensures t.bufferingStarted ==> r.bufferingStarted
    ensures t.bufferingEnded ==> r.bufferingEnded
    ensures (t.bufferingEnded ==> t.bufferingStarted) ==> (r.bufferingEnded ==> r.bufferingStarted)
  {
    var s0 := t.state;
    var s1 :=
      if t.prevStatus.Some? && !t.prevStatus.value.isLoaded && status.isLoaded
      then s0.(initialLoadingTimestamp := Some(elapsed))
      else s0;
    var (started, ended, s2) :=
      if !t.bufferingStarted then
        (status.isBuffering, t.bufferingEnded, s1)
      else if !t.bufferingEnded && !status.isBuffering then
        (true, true, s1.(initialBufferingTimestamp := Some(elapsed)))
      else
        (t.bufferingStarted, t.bufferingEnded, s1);
    var s3 :=
      if !Truthy(s2.initialPlayingTimestamp) && t.prevStatus.Some? &&
         !t.prevStatus.value.isPlaying && status.isPlaying
      then s2.(initialPlayingTimestamp := Some(elapsed))
      else s2;
    var s4 :=
      if status.isLoaded
      then s3.(duration := Some(DurationText(status.durationMillis)),
               volume := status.volume,
               isLoaded := status.isLoaded,
               isPlaying := status.isPlaying,
               playbackInstancePosition := Some(status.positionMillis),
               playbackInstanceDuration := status.durationMillis)
      else s3;
    Tracker(Some(status), started, ended, s4)
  }

  /** The load milestone is written only on a not-loaded -> loaded transition after an
      earlier snapshot; in particular the very first snapshot never writes it. */
  lemma LoadingMilestoneStep(t: Tracker, status: Status, elapsed: int)
    ensures var after := StatusStep(t, status, elapsed).state.initialLoadingTimestamp;
            after != t.state.initialLoadingTimestamp ==>
              && t.prevStatus.Some? && !t.prevStatus.value.isLoaded && status.isLoaded
              && after == Some(elapsed)
    ensures t.prevStatus.Some? && !t.prevStatus.value.isLoaded && status.isLoaded ==>
              StatusStep(t, status, elapsed).state.initialLoadingTimestamp == Some(elapsed)
    ensures t.prevStatus == None ==>
              StatusStep(t, status, elapsed).state.initialLoadingTimestamp ==
              t.state.initialLoadingTimestamp
  {
  }

  /** The buffering milestone is written only while "started" is latched and "ended" is
      not, by a snapshot that is not buffering, and writing it latches "ended"; a snapshot
      arriving before "started" (the one that first reports buffering included) never writes
      it. */
  lemma BufferingMilestoneStep(t: Tracker, status: Status, elapsed: int)
    ensures var r := StatusStep(t, status, elapsed);
            r.state.initialBufferingTimestamp != t.state.initialBufferingTimestamp ==>
              && t.bufferingStarted && !t.bufferingEnded && !status.isBuffering
              && r.state.initialBufferingTimestamp == Some(elapsed)
              && r.bufferingEnded
    ensures !t.bufferingStarted || t.bufferingEnded ==>
              StatusStep(t, status, elapsed).state.initialBufferingTimestamp ==
              t.state.initialBufferingTimestamp
    ensures !t.bufferingStarted ==>
              StatusStep(t, status, elapsed).bufferingStarted == status.isBuffering
  {
  }

  /** The first-play milestone is written only when none is recorded (a recorded 0 reads as
      none), an earlier snapshot exists, and it was not playing while this one is. */
  lemma PlayingMilestoneStep(t: Tracker, status: Status, elapsed: int)
    ensures var after := StatusStep(t, status, elapsed).state.initialPlayingTimestamp;
            after != t.state.initialPlayingTimestamp ==>
              && !Truthy(t.state.initialPlayingTimestamp)
              && t.prevStatus.Some? && !t.prevStatus.value.isPlaying && status.isPlaying
              && after == Some(elapsed)
    ensures Truthy(t.state.initialPlayingTimestamp) ==>
              StatusStep(t, status, elapsed).state.initialPlayingTimestamp ==
              t.state.initialPlayingTimestamp
    ensures !Truthy(t.state.initialPlayingTimestamp) && t.prevStatus.Some? &&
            !t.prevStatus.value.isPlaying && status.isPlaying ==>
              StatusStep(t, status, elapsed).state.initialPlayingTimestamp == Some(elapsed)
  {
  }

  /** A loaded snapshot's position, duration and playing flag are copied into the state; a
      snapshot that is not loaded copies nothing. */
  lemma CopiesOnlyLoadedStatus(t: Tracker, status: Status, elapsed: int)
    ensures var s := StatusStep(t, status, elapsed).state;
            status.isLoaded ==>
              && s.playbackInstancePosition == Some(status.positionMillis)
              && s.playbackInstanceDuration == status.durationMillis
              && s.isPlaying == status.isPlaying && s.isLoaded
              && s.volume == status.volume
              && s.duration == Some(DurationText(status.durationMillis))
    ensures var s := StatusStep(t, status, elapsed).state;
            !status.isLoaded ==>
              && s.playbackInstancePosition == t.state.playbackInstancePosition
              && s.playbackInstanceDuration == t.state.playbackInstanceDuration
              && s.isPlaying == t.state.isPlaying && s.isLoaded == t.state.isLoaded
              && s.volume == t.state.volume && s.duration == t.state.duration
  {
  }

  // ---------------------------------------------------------------------------
  // Whole streams of snapshots
  // ---------------------------------------------------------------------------

  /** The status callbacks of a stream, processed in order. */
  function Replay(t: Tracker, updates: seq<Update>): Tracker
    decreases |updates|
  {
    if updates == [] then t
    else Replay(StatusStep(t, updates[0].status, updates[0].elapsed), updates[1..])
  }

  function OrElse(o: Option<int>, fallback: Option<int>): Option<int>
  {
    if o.Some? then o else fallback
  }

  /** Elapsed time of the first snapshot in the stream that is not buffering. */
  function FirstNotBuffering(updates: seq<Update>): Option<int>
    decreases |updates|
  {
    if updates == [] then None
    else if !updates[0].status.isBuffering then Some(updates[0].elapsed)
    else FirstNotBuffering(updates[1..])
  }

  /** Reference definition of the buffering milestone: the elapsed time of the first
      snapshot that is not buffering after the first snapshot that is. */
  function InitialBufferingEnd(updates: seq<Update>): Option<int>
    decreases |updates|
  {
    if updates == [] then None
    else if updates[0].status.isBuffering then FirstNotBuffering(updates[1..])
    else InitialBufferingEnd(updates[1..])
  }

  /** Replaying from any state whose latches are consistent: the latches stay consistent,
      and the buffering milestone becomes the end of buffering the latches are still
      waiting for, if the stream contains one. */
  lemma {:induction false} ReplayBuffering(t: Tracker, updates: seq<Update>)
    requires t.bufferingEnded ==> t.bufferingStarted
    ensures var r := Replay(t, updates);
            r.bufferingEnded ==> r.bufferingStarted
    ensures Replay(t, updates).state.initialBufferingTimestamp ==
            if t.bufferingEnded then t.state.initialBufferingTimestamp
            else if t.bufferingStarted
            then OrElse(FirstNotBuffering(updates), t.state.initialBufferingTimestamp)
            else OrElse(InitialBufferingEnd(updates), t.state.initialBufferingTimestamp)
    decreases |updates|
  {
    if updates != [] {
      var t1 := StatusStep(t, updates[0].status, updates[0].elapsed);
      ReplayBuffering(t1, updates[1..]);
    }
  }

  /** From the initial state, the buffering milestone of a stream is exactly the reference
      one: the first non-buffering snapshot after the first buffering snapshot. */
  lemma BufferingMilestoneOfStream(updates: seq<Update>)
    ensures Replay(InitialTracker, updates).state.initialBufferingTimestamp ==
            InitialBufferingEnd(updates)
    ensures var r := Replay(InitialTracker, updates);
            r.bufferingEnded ==> r.bufferingStarted
  {
    ReplayBuffering(InitialTracker, updates);
  }

  /** Once "ended" is latched, no later stream changes the buffering milestone again. */
  lemma {:induction false} BufferingMilestoneWrittenOnce(t: Tracker, updates: seq<Update>)
    requires t.bufferingEnded
    ensures Replay(t, updates).bufferingEnded
    ensures Replay(t, updates).state.initialBufferingTimestamp == t.state.initialBufferingTimestamp
    decreases |updates|
  {
    if updates != [] {
      BufferingMilestoneWrittenOnce(StatusStep(t, updates[0].status, updates[0].elapsed), updates[1..]);
    }
  }

  /** The load milestone is not write-once: a sound that reports not-loaded again and then
      loaded again has its load milestone rewritten by the second transition. */
  lemma LoadingMilestoneRewrittenOnReload()
    ensures var notLoaded := Status(false, false, false, 0, None, 1.0, None);
            var loaded := Status(true, false, false, 0, Some(1000), 1.0, None);
            Replay(InitialTracker, [Update(notLoaded, 0), Update(loaded, 50),
                                    Update(notLoaded, 70), Update(loaded, 90)])
              .state.initialLoadingTimestamp == Some(90)
  {
    var notLoaded := Status(false, false, false, 0, None, 1.0, None);
    var loaded := Status(true, false, false, 0, Some(1000), 1.0, None);
    var t1 := StatusStep(InitialTracker, notLoaded, 0);
    var t2 := StatusStep(t1, loaded, 50);
    var t3 := StatusStep(t2, notLoaded, 70);
    var t4 := StatusStep(t3, loaded, 90);
    var us := [Update(notLoaded, 0), Update(loaded, 50), Update(notLoaded, 70), Update(loaded, 90)];
    assert Replay(t4, []) == t4;
    assert Replay(t3, us[3..]) == t4;
    assert Replay(t2, us[2..]) == t4;
    assert Replay(t1, us[1..]) == t4;
  }

  /** Not loaded at 0 ms, then loaded and buffering at 50, loaded and not buffering at 120,
      loaded and playing at 300: the milestones are 50, 120 and 300. */
  lemma MilestoneScenario()
    ensures var s0 := Status(false, false, false, 0, None, 1.0, None);
            var s1 := Status(true, true, false, 0, Some(60000), 1.0, None);
            var s2 := Status(true, false, false, 0, Some(60000), 1.0, None);
            var s3 := Status(true, false, true, 0, Some(60000), 1.0, None);
            var r := Replay(InitialTracker, [Update(s0, 0), Update(s1, 50), Update(s2, 120), Update(s3, 300)]).state;
            && r.initialLoadingTimestamp == Some(50)
            && r.initialBufferingTimestamp == Some(120)
            && r.initialPlayingTimestamp == Some(300)
  {
    var s0 := Status(false, false, false, 0, None, 1.0, None);
    var s1 := Status(true, true, false, 0, Some(60000), 1.0, None);
    var s2 := Status(true, false, false, 0, Some(60000), 1.0, None);
    var s3 := Status(true, false, true, 0, Some(60000), 1.0, None);
    var us := [Update(s0, 0), Update(s1, 50), Update(s2, 120), Update(s3, 300)];
    var t1 := StatusStep(InitialTracker, s0, 0);
    var t2 := StatusStep(t1, s1, 50);
    var t3 := StatusStep(t2, s2, 120);
    var t4 := StatusStep(t3, s3, 300);
    assert Replay(t4, []) == t4;
    assert Replay(t3, us[3..]) == t4;
    assert Replay(t2, us[2..]) == t4;
    assert Replay(t1, us[1..]) == t4;
  }

  // ---------------------------------------------------------------------------
  // The screen
  // ---------------------------------------------------------------------------

  /** The played fraction of a track: the position over the duration. */
  function PlayedFraction(position: nat, duration: nat): (r: real)
    requires duration > 0
    ensures r * duration as real == position as real
    ensures position <= duration ==> 0.0 <= r <= 1.0
  {
    FractionFacts(position as real, duration as real);
    position as real / duration as real
  }

  lemma FractionFacts(p: real, d: real)
    requires 0.0 <= p && d > 0.0
    ensures (p / d) * d == p
    ensures 0.0 <= p / d
    ensures p <= d ==> p / d <= 1.0
  {
  }

  /** The player screen. `hasSound` stands for `soundObject != null`; `isSeeking` and `seek`
      are the instance fields of the seek-hold protocol (not the component state's `seek`). */
  class PlayerScreen {
    var state: ScreenState
    var hasSound: bool
    var prevStatus: Option<Status>
    var bufferingStarted: bool
    var bufferingEnded: bool
    var isSeeking: bool
    var seek: real

    function AsTracker(): Tracker
      reads this
    {
      Tracker(prevStatus, bufferingStarted, bufferingEnded, state)
    }

    ghost predicate Valid()
      reads this
    {
      bufferingEnded ==> bufferingStarted
    }

    constructor ()
      ensures Valid() && AsTracker() == InitialTracker
      ensures !hasSound && !isSeeking
    {
      state := InitialState;
      hasSound := false;
      prevStatus := None;
      bufferingStarted, bufferingEnded := false, false;
      isSeeking := false;
      seek := 0.0;
    }

    /** `_play`: the first press loads the remote file with autoplay and an 800 ms status
        interval; later presses resume the loaded sound. */
    method Play() returns (cmd: Command)
      ensures !hasSound ==> cmd == LoadAndPlay(800, 0)
      ensures hasSound ==> cmd == Resume
    {
      if !hasSound {
        cmd := LoadAndPlay(800, 0);
      } else {
        cmd := Resume;
      }
    }

    /** The load requested by `Play` has resolved: the sound object is stored. */
    method LoadResolved()
      modifies this`hasSound
      ensures hasSound
    {
      hasSound := true;
    }

    /** `_pause`: the source dereferences the sound without a check, so a loaded sound is
        required. */
    method PauseSound() returns (cmd: Command)
      requires hasSound
      ensures cmd == Pause
    {
      cmd := Pause;
    }

    /** `_onPlaybackStatusUpdate`, with the elapsed time as an input. */
    method OnPlaybackStatusUpdate(status: Status, elapsed: int)
      requires Valid()
      modifies this
      ensures Valid()
      ensures AsTracker() == StatusStep(old(AsTracker()), status, elapsed)
      ensures hasSound == old(hasSound) && isSeeking == old(isSeeking) && seek == old(seek)
    {
      if prevStatus.Some? && !prevStatus.value.isLoaded && status.isLoaded {
        state := state.(initialLoadingTimestamp := Some(elapsed));
      }

      if !bufferingStarted {
        if status.isBuffering {
          bufferingStarted := true;
        }
      } else if !bufferingEnded && !status.isBuffering {
        state := state.(initialBufferingTimestamp := Some(elapsed));
        bufferingEnded := true;
      }

      if !Truthy(state.initialPlayingTimestamp) && prevStatus.Some? &&
         !prevStatus.value.isPlaying && status.isPlaying {
        state := state.(initialPlayingTimestamp := Some(elapsed));
      }

      prevStatus := Some(status);

      if status.isLoaded {
        state := state.(duration := Some(DurationText(status.durationMillis)),
                        volume := status.volume,
                        isLoaded := status.isLoaded,
                        isPlaying := status.isPlaying,
                        playbackInstancePosition := Some(status.positionMillis),
                        playbackInstanceDuration := status.durationMillis);
      }
    }

    /** `_onSeekChange`: with a sound, hold the slider's value; without one, do nothing. */
    method OnSeekChange(value: real)
      modifies this`isSeeking, this`seek
      ensures old(hasSound) ==> isSeeking && seek == value
      ensures !old(hasSound) ==> isSeeking == old(isSeeking) && seek == old(seek)
    {
      if hasSound {
        if !isSeeking {
          isSeeking := true;
        }
        seek := value;
      }
    }

    /** `_onSeekComplete`, first half: with a sound, ask the engine to move to `value` times
        the known duration. The hold is not released yet. A duration must be known, since
        without one the target is NaN. */
    method OnSeekComplete(value: real) returns (cmd: Option<Command>)
      requires hasSound ==> state.playbackInstanceDuration.Some?
      ensures hasSound ==>
                cmd == Some(SetPosition(value * state.playbackInstanceDuration.value as real))
      ensures !hasSound ==> cmd == None
    {
      if hasSound {
        cmd := Some(SetPosition(value * state.playbackInstanceDuration.value as real));
      } else {
        cmd := None;
      }
    }

    /** `_onSeekComplete`, second half: the position command has resolved, so the hold is
        released. Only reached when the first half found a sound. */
    method SeekResolved()
      requires hasSound
      modifies this`isSeeking
      ensures !isSeeking
    {
      isSeeking := false;
    }

    /** `_getSeekSliderPosition`: the held value while seeking; otherwise the played fraction
        when sound, position and duration are all known; otherwise 0. The division needs a
        non-zero duration. */
    function SeekSliderPosition(): (r: real)
      reads this
      requires (!isSeeking && hasSound && state.playbackInstancePosition.Some? &&
                state.playbackInstanceDuration.Some?) ==> state.playbackInstanceDuration.value > 0
      ensures isSeeking ==> r == seek
      ensures !isSeeking && hasSound && state.playbackInstancePosition.Some? &&
              state.playbackInstanceDuration.Some? ==>
                r * state.playbackInstanceDuration.value as real ==
                state.playbackInstancePosition.value as real
      ensures (!isSeeking && !(hasSound && state.playbackInstancePosition.Some? &&
                               state.playbackInstanceDuration.Some?)) ==> r == 0.0
      ensures !isSeeking && hasSound && state.playbackInstancePosition.Some? &&
              state.playbackInstanceDuration.Some? &&
              state.playbackInstancePosition.value <= state.playbackInstanceDuration.value ==>
                0.0 <= r <= 1.0
    {
      if isSeeking then seek
      else if hasSound && state.playbackInstancePosition.Some? && state.playbackInstanceDuration.Some? then
        PlayedFraction(state.playbackInstancePosition.value, state.playbackInstanceDuration.value)
      else 0.0
    }
  }
}
