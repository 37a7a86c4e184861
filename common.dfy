/** Small helpers shared by the components: an optional value, and the
    "replace the element whose id matches" list update that TrackMixer and
    EffectsRack both write as `list.map(x => x.id === id ? f(x) : x)`. */
module Common {

  datatype Option<+T> = None | Some(value: T)

  /** `s.map(x => hit(x) ? f(x) : x)`: every element that `hit` selects is
      replaced by its image under `f`, every other element is kept, and the
      length and order of the list are preserved. */
  function MapWhere<T>(s: seq<T>, hit: T -> bool, f: T -> T): (r: seq<T>)
    ensures |r| == |s|
    ensures forall i :: 0 <= i < |s| && hit(s[i]) ==> r[i] == f(s[i])
    ensures forall i :: 0 <= i < |s| && !hit(s[i]) ==> r[i] == s[i]
  {
    if s == [] then []
    else [if hit(s[0]) then f(s[0]) else s[0]] + MapWhere(s[1..], hit, f)
  }

  /** When nothing in the list is selected, the update is the identity. */
  lemma MapWhereMissIsIdentity<T>(s: seq<T>, hit: T -> bool, f: T -> T)
    requires forall i :: 0 <= i < |s| ==> !hit(s[i])
    ensures MapWhere(s, hit, f) == s
  {
  }
}
