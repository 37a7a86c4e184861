/** DAWWorkspace: the transport (play/pause, stop, skip by ten seconds), the
    clock read-out, the master volume and the fixed track list that the mixer
    and the timeline are given. */
module Workspace {
  import opened Common
  import Decimal
  import Mixer
  import Timeline

  /** The transport's state: whether it is playing and the position in seconds. */
  datatype Transport = Transport(isPlaying: bool, currentTime: int)

  /** The transport buttons. */
  datatype Command = PlayPause | Stop | SkipBack | SkipForward

  const InitialTransport := Transport(false, 0)
  const InitialBpm := 120
  const InitialMasterVolume := 75

  /** One button press. Play/pause only flips the flag: nothing in the
      workspace advances the position while playing. */
  function Step(s: Transport, c: Command): Transport {
    match c
    case PlayPause => s.(isPlaying := !s.isPlaying)
    case Stop => Transport(false, 0)
    case SkipBack => s.(currentTime := if 0 >= s.currentTime - 10 then 0 else s.currentTime - 10)
    case SkipForward => s.(currentTime := s.currentTime + 10)
  }

  /** The state after a sequence of presses. */
  function Run(s: Transport, cmds: seq<Command>): Transport
    decreases |cmds|
  {
    if cmds == [] then s else Run(Step(s, cmds[0]), cmds[1..])
  }

  /** The states the workspace can be in: stopped or playing at a
      non-negative multiple of ten seconds. */
  predicate OnTenSecondGrid(s: Transport) {
    s.currentTime >= 0 && s.currentTime % 10 == 0
  }

  /** Every press keeps the position on the ten-second grid, and skipping
      back never goes below zero. */
  lemma StepKeepsGrid(s: Transport, c: Command)
    requires OnTenSecondGrid(s)
    ensures OnTenSecondGrid(Step(s, c))
  {
  }

  lemma SkipBackNeverNegative(s: Transport)
    ensures Step(s, SkipBack).currentTime >= 0
    ensures Step(s, SkipBack).currentTime <= if s.currentTime >= 0 then s.currentTime else 0
  {
  }

  /** Every reachable state is on the ten-second grid. */
  lemma {:induction false} ReachableOnGrid(s: Transport, cmds: seq<Command>)
    requires OnTenSecondGrid(s)
    ensures OnTenSecondGrid(Run(s, cmds))
    decreases |cmds|
  {
    if cmds != [] {
      StepKeepsGrid(s, cmds[0]);
      ReachableOnGrid(Step(s, cmds[0]), cmds[1..]);
    }
  }

  /** The presses that reach a state on the grid from the initial state:
      skip forward to the position, then press play if it is playing. */
  function PressesTo(s: Transport): seq<Command>
    requires OnTenSecondGrid(s)
  {
    seq(s.currentTime / 10, _ => SkipForward) + (if s.isPlaying then [PlayPause] else [])
  }

  lemma {:induction false} SkipsForward(s: Transport, k: nat)
    ensures Run(s, seq(k, _ => SkipForward)) == s.(currentTime := s.currentTime + 10 * k)
    decreases k
  {
    if k > 0 {
      assert seq(k, _ => SkipForward)[1..] == seq(k - 1, _ => SkipForward);
      SkipsForward(Step(s, SkipForward), k - 1);
    }
  }

  lemma {:induction false} RunAppend(s: Transport, a: seq<Command>, b: seq<Command>)
    ensures Run(s, a + b) == Run(Run(s, a), b)
    decreases |a|
  {
    if a != [] {
      assert (a + b)[1..] == a[1..] + b;
      RunAppend(Step(s, a[0]), a[1..], b);
    } else {
      assert a + b == b;
    }
  }

  /** Conversely, every state on the grid is reachable from the initial one. */
  lemma GridIsReachable(s: Transport)
    requires OnTenSecondGrid(s)
    ensures Run(InitialTransport, PressesTo(s)) == s
  {
    var k := s.currentTime / 10;
    SkipsForward(InitialTransport, k);
    RunAppend(InitialTransport, seq(k, _ => SkipForward), if s.isPlaying then [PlayPause] else []);
  }

  /** Stop rewinds and halts from any state, and pressing it again changes nothing. */
  lemma StopIdempotent(s: Transport)
    ensures Step(s, Stop) == Transport(false, 0)
    ensures Step(Step(s, Stop), Stop) == Step(s, Stop)
  {
  }

  /** Play/pause twice is no change; it never moves the position. */
  lemma PlayPauseTwice(s: Transport)
    ensures Step(s, PlayPause).currentTime == s.currentTime
    ensures Step(Step(s, PlayPause), PlayPause) == s
  {
  }

  /** Skipping forward then back returns to a non-negative position; skipping
      back then forward returns to any position of at least ten seconds. */
  lemma SkipsUndo(s: Transport)
    ensures s.currentTime >= 0 ==> Step(Step(s, SkipForward), SkipBack) == s
    ensures s.currentTime >= 10 ==> Step(Step(s, SkipBack), SkipForward) == s
  {
  }

  /** `formatTime(seconds)`: whole minutes, a colon, and the remaining
      seconds padded to two digits. */
  function FormatTime(seconds: nat): (text: string)
    ensures |text| >= 4 && text[|text| - 3] == ':'
  {
    var m, ss := seconds / 60, seconds % 60;
    Decimal.ShowBelowHundred(ss);
    var minutes := Decimal.Show(m);
    var secs := Decimal.PadTwo(Decimal.Show(ss));
    assert |secs| == 2 && |minutes| >= 1;
    minutes + ":" + secs
  }

  /** Reads a clock text back into seconds; the inverse of `FormatTime`. */
  function ParseTime(text: string): Option<nat> {
    if |text| >= 4 && text[|text| - 3] == ':'
       && Decimal.AllDigits(text[..|text| - 3]) && Decimal.AllDigits(text[|text| - 2..])
       && Decimal.Value(text[|text| - 2..]) < 60
    then Some(60 * Decimal.Value(text[..|text| - 3]) + Decimal.Value(text[|text| - 2..]))
    else None
  }

  /** Reading a clock text made of a minutes numeral and a two-digit
      seconds field below sixty. */
  lemma ParseClock(minutes: string, secs: string, m: nat, ss: nat)
    requires |minutes| > 0 && Decimal.AllDigits(minutes) && Decimal.Value(minutes) == m
    requires |secs| == 2 && Decimal.AllDigits(secs) && Decimal.Value(secs) == ss < 60
    ensures ParseTime(minutes + ":" + secs) == Some(60 * m + ss)
  {
    var text := minutes + ":" + secs;
    assert text[..|text| - 3] == minutes;
    assert text[|text| - 2..] == secs;
  }

  /** The clock text of `m` minutes and `ss` seconds reads back as `60 * m + ss`. */
  lemma ClockRoundTrip(m: nat, ss: nat)
    requires ss < 60
    ensures |Decimal.Show(ss)| <= 2
    ensures ParseTime(Decimal.Show(m) + ":" + Decimal.PadTwo(Decimal.Show(ss))) == Some(60 * m + ss)
  {
    Decimal.PadTwoValue(ss);
    Decimal.ValueShow(m);
    ParseClock(Decimal.Show(m), Decimal.PadTwo(Decimal.Show(ss)), m, ss);
  }

  /** The clock text determines the seconds: minutes times sixty plus a
      seconds field below sixty gives back the input. */
  lemma FormatTimeRoundTrip(seconds: nat)
    ensures ParseTime(FormatTime(seconds)) == Some(seconds)
  {
    var m, ss := seconds / 60, seconds % 60;
    assert 60 * m + ss == seconds;
    ClockRoundTrip(m, ss);
    assert FormatTime(seconds) == Decimal.Show(m) + ":" + Decimal.PadTwo(Decimal.Show(ss));
  }

  /** On the ten-second grid the clock's last digit is always 0. */
  lemma ClockEndsInZero(s: Transport)
    requires OnTenSecondGrid(s)
    ensures var text := FormatTime(s.currentTime); text[|text| - 1] == '0'
  {
    var seconds: nat := s.currentTime;
    var m, ss := seconds / 60, seconds % 60;
    assert ss % 10 == 0;
    Decimal.ShowBelowHundred(ss);
    Decimal.LastDigit(ss);
    var secs := Decimal.PadTwo(Decimal.Show(ss));
    assert secs[1] == Decimal.Show(ss)[|Decimal.Show(ss)| - 1];
    var text := Decimal.Show(m) + ":" + secs;
    assert FormatTime(seconds) == text;
    assert text[|text| - 1] == secs[1];
  }

  /** The track list the workspace hands to the mixer and the timeline. */
  function InitialTracks(): seq<Mixer.Track> {
    [ Mixer.Track(1, "Drums", "#ff6b6b", 80, 0, false, false),
      Mixer.Track(2, "Bass", "#4ecdc4", 70, -20, false, false),
      Mixer.Track(3, "Guitar", "#45b7d1", 75, 15, false, false),
      Mixer.Track(4, "Vocals", "#96ceb4", 85, 0, false, false),
      Mixer.Track(5, "Synth", "#feca57", 65, 10, false, false) ]
  }

  /** The tracks have distinct ids and sit inside the mixer's slider ranges. */
  lemma InitialTracksWellFormed()
    ensures Mixer.DistinctIds(InitialTracks()) && Mixer.AllInRange(InitialTracks())
    ensures |InitialTracks()| == 5 && forall i :: 0 <= i < 5 ==> InitialTracks()[i].id == i + 1
  {
  }

  /** Each mock clip lands in exactly one lane of the workspace's timeline. */
  lemma EveryClipInOneLane()
    ensures Timeline.EachClipInOneLane(Timeline.Lanes(InitialTracks(), Timeline.MockClips()), Timeline.MockClips())
  {
    InitialTracksWellFormed();
    Timeline.MockClipTracks();
    TracksCoverClips(InitialTracks(), Timeline.MockClips());
    Timeline.LanesPartitionClips(InitialTracks(), Timeline.MockClips());
  }

  lemma TracksCoverClips(tracks: seq<Mixer.Track>, clips: seq<Timeline.Clip>)
    requires forall i :: 0 <= i < |tracks| ==> tracks[i].id == i + 1
    requires forall c :: c in clips ==> 1 <= c.trackId <= |tracks|
    ensures forall c :: c in clips ==> exists k :: 0 <= k < |tracks| && tracks[k].id == c.trackId
  {
    forall c | c in clips
      ensures exists k :: 0 <= k < |tracks| && tracks[k].id == c.trackId
    {
      assert tracks[c.trackId - 1].id == c.trackId;
    }
  }

  /** The workspace component's state. The track list has no setter, so it
      is a constant. */
  class DAWWorkspace {
    var isPlaying: bool
    var currentTime: int
    var bpm: int
    var masterVolume: int
    const tracks: seq<Mixer.Track>

    function State(): Transport reads this { Transport(isPlaying, currentTime) }

    ghost predicate Valid() reads this { OnTenSecondGrid(State()) }

    constructor ()
      ensures Valid()
      ensures !isPlaying && currentTime == 0 && bpm == InitialBpm && masterVolume == InitialMasterVolume
      ensures tracks == InitialTracks()
    {
      isPlaying, currentTime := false, 0;
      bpm, masterVolume := InitialBpm, InitialMasterVolume;
      tracks := InitialTracks();
    }

    /** `handlePlayPause`. */
    method PlayPause()
      requires Valid()
      modifies this`isPlaying
      ensures Valid() && State() == Step(old(State()), Command.PlayPause)
    {
      isPlaying := !isPlaying;
    }

    /** `handleStop`. */
    method Stop()
      requires Valid()
      modifies this`isPlaying, this`currentTime
      ensures Valid() && State() == Step(old(State()), Command.Stop)
    {
      isPlaying := false;
      currentTime := 0;
    }

    /** The skip-back button: `Math.max(0, currentTime - 10)`. */
    method SkipBack()
      requires Valid()
      modifies this`currentTime
      ensures Valid() && State() == Step(old(State()), Command.SkipBack)
    {
      currentTime := if 0 >= currentTime - 10 then 0 else currentTime - 10;
    }

    /** The skip-forward button: no upper bound. */
    method SkipForward()
      requires Valid()
      modifies this`currentTime
      ensures Valid() && State() == Step(old(State()), Command.SkipForward)
    {
      currentTime := currentTime + 10;
    }

    /** The master volume slider (0..100, step 1). */
    method SetMasterVolume(v: int)
      modifies this`masterVolume
      ensures masterVolume == v
    {
      masterVolume := v;
    }
  }
}
