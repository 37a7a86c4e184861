/** Timeline: the arrangement view. Its own state is the zoom factor and the
    grid switch; the track lanes show the mock clips of each track. */
module Timeline {
  import Mixer

  const TotalDuration: int := 32
  const BaseWidth: real := 800.0

  datatype Clip = Clip(trackId: int, start: int, duration: int, name: string)

  /** The mock clip table. */
  function MockClips(): seq<Clip> {
    [ Clip(1, 0, 4, "Kick Pattern"),
      Clip(1, 8, 4, "Fill"),
      Clip(2, 1, 7, "Bassline"),
      Clip(3, 2, 6, "Rhythm Guitar"),
      Clip(4, 16, 8, "Vocal Take 1"),
      Clip(5, 4, 4, "Lead Synth") ]
  }

  /** Every mock clip starts inside the timeline and ends by its last second. */
  lemma MockClipsFit()
    ensures forall c :: c in MockClips() ==>
      0 <= c.start && 0 < c.duration && c.start + c.duration <= TotalDuration
  {
  }

  /** The mock clips belong to tracks 1 to 5. */
  lemma MockClipTracks()
    ensures forall c :: c in MockClips() ==> 1 <= c.trackId <= 5
  {
  }

  /** `Math.max` and `Math.min` on numbers. */
  function Max(a: real, b: real): real { if a >= b then a else b }
  function Min(a: real, b: real): real { if a <= b then a else b }

  /** The zoom factor is kept as a count of quarters: zoom = quarters / 4. */
  function ZoomOf(quarters: int): real { quarters as real / 4.0 }

  /** The zoom-out button, `Math.max(0.5, zoom - 0.25)`, on quarters. */
  function ZoomOutQuarters(q: int): (r: int)
    ensures ZoomOf(r) == Max(0.5, ZoomOf(q) - 0.25)
    ensures 2 <= r <= (if q <= 3 then 2 else q - 1)
  {
    if q - 1 < 2 then 2 else q - 1
  }

  /** The zoom-in button, `Math.min(3, zoom + 0.25)`, on quarters. */
  function ZoomInQuarters(q: int): (r: int)
    ensures ZoomOf(r) == Min(3.0, ZoomOf(q) + 0.25)
    ensures (if q >= 11 then 12 else q + 1) <= r <= 12
  {
    if q + 1 > 12 then 12 else q + 1
  }

  /** Zooming in undoes zooming out, and the other way round, away from the
      ends of the range. */
  lemma ZoomInOutInverse(q: int)
    requires 2 <= q <= 12
    ensures 2 < q ==> ZoomInQuarters(ZoomOutQuarters(q)) == q
    ensures q < 12 ==> ZoomOutQuarters(ZoomInQuarters(q)) == q
  {
  }

  /** The zoom read-out, `Math.round(zoom * 100)` percent: the product is
      already a whole number, a multiple of 25 from 50 to 300. */
  function ZoomPercent(q: int): (pct: int)
    requires 2 <= q <= 12
    ensures pct as real == ZoomOf(q) * 100.0
    ensures 50 <= pct <= 300 && pct % 25 == 0
  {
    q * 25
  }

  /** `timelineWidth = 800 * zoom`. */
  function TimelineWidth(q: int): real { BaseWidth * ZoomOf(q) }

  /** The grid lines' left offsets: `totalDuration * 4` lines at even
      spacing when the grid is shown, none otherwise. */
  function GridLines(showGrid: bool, q: int): (lines: seq<real>)
    requires q >= 2
    ensures |lines| == if showGrid then 4 * TotalDuration else 0
    ensures forall i :: 0 <= i < |lines| ==> 0.0 <= lines[i] < TimelineWidth(q)
  {
    if showGrid then seq(4 * TotalDuration, i requires 0 <= i < 4 * TotalDuration => GridOffset(i, q))
    else []
  }

  /** The left offset of grid line `i`: `(i / (totalDuration * 4)) * timelineWidth`. */
  function GridOffset(i: int, q: int): (x: real)
    requires 0 <= i < 4 * TotalDuration && q >= 2
    ensures 0.0 <= x < TimelineWidth(q)
  {
    var a := i as real / 128.0;
    MulLeft(0.0, a, TimelineWidth(q));
    MulLess(a, TimelineWidth(q));
    a * TimelineWidth(q)
  }

  /** Neighbouring grid lines are one 128th of the timeline apart. */
  lemma GridSpacing(i: int, q: int)
    requires 0 < i < 4 * TotalDuration && q >= 2
    ensures GridOffset(i, q) - GridOffset(i - 1, q) == TimelineWidth(q) / 128.0
  {
    var w := TimelineWidth(q);
    var a := i as real / 128.0;
    var b := (i - 1) as real / 128.0;
    assert a == b + 1.0 / 128.0;
    assert a * w == b * w + (1.0 / 128.0) * w;
  }

  datatype Position = Position(left: real, width: real)

  /** `getClipPosition(start, duration)`: offsets proportional to the clip's
      times over the 32-second timeline. */
  function ClipPosition(start: int, duration: int, q: int): Position {
    Position((start as real / TotalDuration as real) * TimelineWidth(q),
             (duration as real / TotalDuration as real) * TimelineWidth(q))
  }

  lemma MulLeft(a: real, b: real, w: real)
    requires 0.0 <= a <= b && 0.0 <= w
    ensures a * w <= b * w
  {
  }

  lemma MulLess(a: real, w: real)
    requires a < 1.0 && 0.0 < w
    ensures a * w < w
  {
  }

  /** A clip that lies within the 32 seconds is drawn within the timeline. */
  lemma ClipInsideTimeline(start: int, duration: int, q: int)
    requires 0 <= start && 0 <= duration && start + duration <= TotalDuration && q >= 0
    ensures 0.0 <= ClipPosition(start, duration, q).left
    ensures 0.0 <= ClipPosition(start, duration, q).width
    ensures ClipPosition(start, duration, q).left + ClipPosition(start, duration, q).width <= TimelineWidth(q)
  {
    var w := TimelineWidth(q);
    var a := start as real / 32.0;
    var d := duration as real / 32.0;
    assert a * w + d * w == (a + d) * w;
    MulLeft(0.0, a, w);
    MulLeft(0.0, d, w);
    MulLeft(a + d, 1.0, w);
  }

  /** A clip's box ends exactly where a clip starting at its end time begins. */
  lemma ClipsAbut(start: int, duration: int, q: int)
    ensures ClipPosition(start, duration, q).left + ClipPosition(start, duration, q).width
         == ClipPosition(start + duration, 0, q).left
  {
    var w := TimelineWidth(q);
    assert (start as real / 32.0) * w + (duration as real / 32.0) * w
        == ((start + duration) as real / 32.0) * w;
  }

  /** `clips.filter(clip => clip.trackId === trackId)`. */
  function ClipsOnLane(clips: seq<Clip>, trackId: int): (lane: seq<Clip>)
    ensures |lane| <= |clips|
    ensures forall c :: c in lane <==> c in clips && c.trackId == trackId
  {
    if clips == [] then []
    else if clips[0].trackId == trackId then [clips[0]] + ClipsOnLane(clips[1..], trackId)
    else ClipsOnLane(clips[1..], trackId)
  }

  /** Filtering keeps the table's order: it distributes over concatenation. */
  lemma {:induction false} ClipsOnLaneAppend(a: seq<Clip>, b: seq<Clip>, trackId: int)
    ensures ClipsOnLane(a + b, trackId) == ClipsOnLane(a, trackId) + ClipsOnLane(b, trackId)
  {
    if a != [] {
      assert (a + b)[1..] == a[1..] + b;
      ClipsOnLaneAppend(a[1..], b, trackId);
    } else {
      assert a + b == b;
    }
  }

  /** One lane per track, in track order. */
  function Lanes(tracks: seq<Mixer.Track>, clips: seq<Clip>): (lanes: seq<seq<Clip>>)
    ensures |lanes| == |tracks|
    ensures forall k, c :: 0 <= k < |tracks| && c in lanes[k] <==> 0 <= k < |tracks| && c in clips && c.trackId == tracks[k].id
  {
    seq(|tracks|, k requires 0 <= k < |tracks| => ClipsOnLane(clips, tracks[k].id))
  }

  /** Every clip of the table is in some lane, and in no two. */
  ghost predicate EachClipInOneLane(lanes: seq<seq<Clip>>, clips: seq<Clip>) {
    && (forall c :: c in clips ==> exists k :: 0 <= k < |lanes| && c in lanes[k])
    && (forall c, j, k :: 0 <= j < |lanes| && 0 <= k < |lanes| && c in lanes[j] && c in lanes[k] ==> j == k)
  }

  /** With distinct track ids and every clip's track present, the lanes
      split the clip table: each clip is shown in exactly one lane. */
  lemma LanesPartitionClips(tracks: seq<Mixer.Track>, clips: seq<Clip>)
    requires Mixer.DistinctIds(tracks)
    requires forall c :: c in clips ==> exists k :: 0 <= k < |tracks| && tracks[k].id == c.trackId
    ensures EachClipInOneLane(Lanes(tracks, clips), clips)
  {
    var lanes := Lanes(tracks, clips);
    forall c: Clip, j, k | 0 <= j < |lanes| && 0 <= k < |lanes| && c in lanes[j] && c in lanes[k]
      ensures j == k
    {
      assert tracks[j].id == c.trackId == tracks[k].id;
    }
  }

  /** The timeline component's own state. */
  class TimelineView {
    var zoomQuarters: int
    var showGrid: bool

    ghost predicate Valid() reads this { 2 <= zoomQuarters <= 12 }

    function Zoom(): real reads this { ZoomOf(zoomQuarters) }

    /** Zoom starts at 1 and the grid is shown. */
    constructor ()
      ensures Valid() && Zoom() == 1.0 && showGrid
    {
      zoomQuarters := 4;
      showGrid := true;
    }

    method ZoomOut()
      requires Valid()
      modifies this
      ensures Valid() && showGrid == old(showGrid)
      ensures Zoom() == Max(0.5, old(Zoom()) - 0.25)
      ensures zoomQuarters == ZoomOutQuarters(old(zoomQuarters))
    {
      zoomQuarters := ZoomOutQuarters(zoomQuarters);
    }

    method ZoomIn()
      requires Valid()
      modifies this
      ensures Valid() && showGrid == old(showGrid)
      ensures Zoom() == Min(3.0, old(Zoom()) + 0.25)
      ensures zoomQuarters == ZoomInQuarters(old(zoomQuarters))
    {
      zoomQuarters := ZoomInQuarters(zoomQuarters);
    }

    method ToggleGrid()
      requires Valid()
      modifies this
      ensures Valid() && zoomQuarters == old(zoomQuarters)
      ensures showGrid == !old(showGrid)
    {
      showGrid := !showGrid;
    }

    /** The percentage shown between the zoom buttons: the read-out of the
        current zoom. */
    function Percent(): (pct: int)
      reads this
      requires Valid()
      ensures pct == ZoomPercent(zoomQuarters)
      ensures pct as real == Zoom() * 100.0
    {
      ZoomPercent(zoomQuarters)
    }
  }
}
