/** TrackMixer: a local copy of the track list, edited one track at a time
    by the volume and pan sliders and the mute and solo buttons. */
module Mixer {
  import opened Common
  import Decimal

  datatype Track = Track(id: int, name: string, color: string,
                         volume: int, pan: int, muted: bool, solo: bool)

  /** `Partial<Track>`: each field is either given or absent. */
  datatype TrackUpdate = TrackUpdate(id: Option<int>, name: Option<string>, color: Option<string>,
                                     volume: Option<int>, pan: Option<int>,
                                     muted: Option<bool>, solo: Option<bool>)

  const NoChange := TrackUpdate(None, None, None, None, None, None, None)

  function Pick<T>(given: Option<T>, kept: T): T {
    if given.Some? then given.value else kept
  }

  /** `{ ...track, ...updates }`. */
  function Merge(t: Track, u: TrackUpdate): Track {
    Track(Pick(u.id, t.id), Pick(u.name, t.name), Pick(u.color, t.color),
          Pick(u.volume, t.volume), Pick(u.pan, t.pan),
          Pick(u.muted, t.muted), Pick(u.solo, t.solo))
  }

  /** `{ ...u1, ...u2 }`: the fields of `u2` win. */
  function Combine(u1: TrackUpdate, u2: TrackUpdate): TrackUpdate {
    TrackUpdate(if u2.id.Some? then u2.id else u1.id,
                if u2.name.Some? then u2.name else u1.name,
                if u2.color.Some? then u2.color else u1.color,
                if u2.volume.Some? then u2.volume else u1.volume,
                if u2.pan.Some? then u2.pan else u1.pan,
                if u2.muted.Some? then u2.muted else u1.muted,
                if u2.solo.Some? then u2.solo else u1.solo)
  }

  /** A spread of an empty partial record changes nothing. */
  lemma MergeNoChange(t: Track)
    ensures Merge(t, NoChange) == t
  {
  }

  /** Spreading the same partial record twice is spreading it once. */
  lemma MergeIdempotent(t: Track, u: TrackUpdate)
    ensures Merge(Merge(t, u), u) == Merge(t, u)
  {
  }

  /** Two successive spreads are one spread of the combined partial record. */
  lemma MergeCombine(t: Track, u1: TrackUpdate, u2: TrackUpdate)
    ensures Merge(Merge(t, u1), u2) == Merge(t, Combine(u1, u2))
  {
  }

  /** The list that `updateTrack(id, updates)` stores:
      `prev.map(track => track.id === id ? { ...track, ...updates } : track)`. */
  function UpdateTracks(tracks: seq<Track>, id: int, u: TrackUpdate): (r: seq<Track>)
    ensures |r| == |tracks|
    ensures forall i :: 0 <= i < |tracks| && tracks[i].id == id ==> r[i] == Merge(tracks[i], u)
    ensures forall i :: 0 <= i < |tracks| && tracks[i].id != id ==> r[i] == tracks[i]
    ensures (forall i :: 0 <= i < |tracks| ==> tracks[i].id != id) ==> r == tracks
  {
    MapWhere(tracks, (t: Track) => t.id == id, (t: Track) => Merge(t, u))
  }

  ghost predicate DistinctIds(tracks: seq<Track>) {
    forall i, j :: 0 <= i < j < |tracks| ==> tracks[i].id != tracks[j].id
  }

  /** The ranges of the volume (0..100) and pan (-50..50) sliders. */
  predicate VolumeInRange(v: int) { 0 <= v <= 100 }
  predicate PanInRange(p: int) { -50 <= p <= 50 }

  ghost predicate AllInRange(tracks: seq<Track>) {
    forall i :: 0 <= i < |tracks| ==> VolumeInRange(tracks[i].volume) && PanInRange(tracks[i].pan)
  }

  function VolumeUpdate(v: int): TrackUpdate { NoChange.(volume := Some(v)) }
  function PanUpdate(p: int): TrackUpdate { NoChange.(pan := Some(p)) }
  function MutedUpdate(b: bool): TrackUpdate { NoChange.(muted := Some(b)) }
  function SoloUpdate(b: bool): TrackUpdate { NoChange.(solo := Some(b)) }

  /** With distinct ids, updating the track at position `k` by its id changes
      that track alone, as `Merge` says, and keeps the ids distinct when the
      update leaves the id alone. */
  lemma UpdateOne(tracks: seq<Track>, k: int, u: TrackUpdate)
    requires DistinctIds(tracks) && 0 <= k < |tracks|
    requires u.id.None?
    ensures var r := UpdateTracks(tracks, tracks[k].id, u);
      && r[k] == Merge(tracks[k], u)
      && (forall j :: 0 <= j < |tracks| && j != k ==> r[j] == tracks[j])
      && DistinctIds(r)
  {
  }

  /** The mute button of the track at `k` flips only that track's `muted`. */
  lemma MuteFlipsOnlyMuted(tracks: seq<Track>, k: int)
    requires DistinctIds(tracks) && 0 <= k < |tracks|
    ensures var r := UpdateTracks(tracks, tracks[k].id, MutedUpdate(!tracks[k].muted));
      && r[k] == tracks[k].(muted := !tracks[k].muted)
      && (forall j :: 0 <= j < |tracks| && j != k ==> r[j] == tracks[j])
  {
    UpdateOne(tracks, k, MutedUpdate(!tracks[k].muted));
  }

  /** The solo button of the track at `k` flips only that track's `solo`. */
  lemma SoloFlipsOnlySolo(tracks: seq<Track>, k: int)
    requires DistinctIds(tracks) && 0 <= k < |tracks|
    ensures var r := UpdateTracks(tracks, tracks[k].id, SoloUpdate(!tracks[k].solo));
      && r[k] == tracks[k].(solo := !tracks[k].solo)
      && (forall j :: 0 <= j < |tracks| && j != k ==> r[j] == tracks[j])
  {
    UpdateOne(tracks, k, SoloUpdate(!tracks[k].solo));
  }

  /** Pressing mute (or solo) twice on the same track restores the list. */
  lemma MuteTwiceRestores(tracks: seq<Track>, k: int)
    requires DistinctIds(tracks) && 0 <= k < |tracks|
    ensures var r := UpdateTracks(tracks, tracks[k].id, MutedUpdate(!tracks[k].muted));
      UpdateTracks(r, r[k].id, MutedUpdate(!r[k].muted)) == tracks
  {
    var r := UpdateTracks(tracks, tracks[k].id, MutedUpdate(!tracks[k].muted));
    MuteFlipsOnlyMuted(tracks, k);
    UpdateOne(tracks, k, MutedUpdate(!tracks[k].muted));
    MuteFlipsOnlyMuted(r, k);
  }

  /** Slider writes with in-range values keep every track within the slider ranges;
      the mute and solo buttons cannot take a track out of them. */
  lemma SlidersKeepRanges(tracks: seq<Track>, id: int, v: int, p: int, b: bool)
    requires AllInRange(tracks) && VolumeInRange(v) && PanInRange(p)
    ensures AllInRange(UpdateTracks(tracks, id, VolumeUpdate(v)))
    ensures AllInRange(UpdateTracks(tracks, id, PanUpdate(p)))
    ensures AllInRange(UpdateTracks(tracks, id, MutedUpdate(b))) && AllInRange(UpdateTracks(tracks, id, SoloUpdate(b)))
  {
  }

  /** The pan read-out: `R<p>` right of centre, `L<|p|>` left of it, `C` at centre. */
  function PanLabel(p: int): (s: string)
    ensures |s| > 0
    ensures s == "C" <==> p == 0
    ensures s[0] == 'R' <==> p > 0
    ensures s[0] == 'L' <==> p < 0
  {
    if p > 0 then "R" + Decimal.Show(p)
    else if p < 0 then "L" + Decimal.Show(-p)
    else "C"
  }

  /** Reads a pan label back; the inverse of `PanLabel`. */
  function ParsePanLabel(s: string): Option<int> {
    if s == "C" then Some(0)
    else if |s| >= 2 && s[0] == 'R' && Decimal.AllDigits(s[1..]) then Some(Decimal.Value(s[1..]))
    else if |s| >= 2 && s[0] == 'L' && Decimal.AllDigits(s[1..]) then Some(0 - Decimal.Value(s[1..]) as int)
    else None
  }

  lemma PanLabelRoundTrip(p: int)
    ensures ParsePanLabel(PanLabel(p)) == Some(p)
  {
    if p != 0 {
      var n: nat := if p > 0 then p else -p;
      var d := Decimal.Show(n);
      var s := PanLabel(p);
      assert s == [if p > 0 then 'R' else 'L'] + d;
      assert s[1..] == d;
      Decimal.ValueShow(n);
    }
  }

  /** Different pan positions always read differently. */
  lemma PanLabelInjective(p: int, q: int)
    requires PanLabel(p) == PanLabel(q)
    ensures p == q
  {
    PanLabelRoundTrip(p);
    PanLabelRoundTrip(q);
  }

  /** The mixer component: its own copy of the `tracks` prop, replaced by
      `setTrackStates` on every edit. */
  class TrackMixer {
    var trackStates: seq<Track>

    /** Distinct ids, and every track inside the slider ranges. */
    ghost predicate Valid() reads this { DistinctIds(trackStates) && AllInRange(trackStates) }

    /** The prop is taken as given; the mixer is valid exactly when the prop is. */
    constructor (tracks: seq<Track>)
      ensures trackStates == tracks
      ensures Valid() <==> DistinctIds(tracks) && AllInRange(tracks)
    {
      trackStates := tracks;
    }

    method UpdateTrack(id: int, u: TrackUpdate)
      modifies this
      ensures trackStates == UpdateTracks(old(trackStates), id, u)
    {
      trackStates := UpdateTracks(trackStates, id, u);
    }

    /** The volume slider of the rendered track at position `k`. */
    method SetVolume(k: nat, v: int)
      requires k < |trackStates|
      modifies this
      ensures trackStates == UpdateTracks(old(trackStates), old(trackStates[k].id), VolumeUpdate(v))
      ensures old(Valid()) && VolumeInRange(v) ==> Valid()
    {
      ghost var before := trackStates;
      UpdateTrack(trackStates[k].id, VolumeUpdate(v));
      if DistinctIds(before) {
        UpdateOne(before, k, VolumeUpdate(v));
      }
      if AllInRange(before) && VolumeInRange(v) {
        SlidersKeepRanges(before, before[k].id, v, 0, false);
      }
    }

    /** The pan slider of the rendered track at position `k`. */
    method SetPan(k: nat, p: int)
      requires k < |trackStates|
      modifies this
      ensures trackStates == UpdateTracks(old(trackStates), old(trackStates[k].id), PanUpdate(p))
      ensures old(Valid()) && PanInRange(p) ==> Valid()
    {
      ghost var before := trackStates;
      UpdateTrack(trackStates[k].id, PanUpdate(p));
      if DistinctIds(before) {
        UpdateOne(before, k, PanUpdate(p));
      }
      if AllInRange(before) && PanInRange(p) {
        SlidersKeepRanges(before, before[k].id, 0, p, false);
      }
    }

    /** The mute button of the rendered track at position `k`. */
    method ToggleMute(k: nat)
      requires k < |trackStates|
      modifies this
      ensures trackStates ==
        UpdateTracks(old(trackStates), old(trackStates[k].id), MutedUpdate(!old(trackStates[k].muted)))
      ensures DistinctIds(old(trackStates)) ==>
        trackStates[k] == old(trackStates[k]).(muted := !old(trackStates[k].muted)) &&
        forall j :: 0 <= j < |trackStates| && j != k ==> trackStates[j] == old(trackStates[j])
      ensures old(Valid()) ==> Valid()
    {
      ghost var before := trackStates;
      UpdateTrack(trackStates[k].id, MutedUpdate(!trackStates[k].muted));
      if DistinctIds(before) {
        MuteFlipsOnlyMuted(before, k);
        UpdateOne(before, k, MutedUpdate(!before[k].muted));
      }
      if AllInRange(before) {
        SlidersKeepRanges(before, before[k].id, 0, 0, !before[k].muted);
      }
    }

    /** The solo button of the rendered track at position `k`. */
    method ToggleSolo(k: nat)
      requires k < |trackStates|
      modifies this
      ensures trackStates ==
        UpdateTracks(old(trackStates), old(trackStates[k].id), SoloUpdate(!old(trackStates[k].solo)))
      ensures DistinctIds(old(trackStates)) ==>
        trackStates[k] == old(trackStates[k]).(solo := !old(trackStates[k].solo)) &&
        forall j :: 0 <= j < |trackStates| && j != k ==> trackStates[j] == old(trackStates[j])
      ensures old(Valid()) ==> Valid()
    {
      ghost var before := trackStates;
      UpdateTrack(trackStates[k].id, SoloUpdate(!trackStates[k].solo));
      if DistinctIds(before) {
        SoloFlipsOnlySolo(before, k);
        UpdateOne(before, k, SoloUpdate(!before[k].solo));
      }
      if AllInRange(before) {
        SlidersKeepRanges(before, before[k].id, 0, 0, !before[k].solo);
      }
    }
  }
}
