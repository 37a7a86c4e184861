/** EffectsRack: a list of effects, each switched on and off and carrying a
    table of named numeric parameters edited by sliders. */
module Effects {
  import opened Common

  /** One entry of an effect's `parameters` object. */
  datatype Param = Param(name: string, value: int)

  /** `kind` is the effect's `type` field. The parameter table keeps the
      insertion order of the object's keys, which is the order the sliders
      are rendered in. */
  datatype Effect = Effect(id: int, name: string, kind: string, enabled: bool, parameters: seq<Param>)

  /** The table's keys, in order: `Object.keys(parameters)`. */
  function Names(ps: seq<Param>): (ns: seq<string>)
    ensures |ns| == |ps|
    ensures forall i :: 0 <= i < |ps| ==> ns[i] == ps[i].name
  {
    if ps == [] then [] else [ps[0].name] + Names(ps[1..])
  }

  ghost predicate NoRepeats(ns: seq<string>) {
    forall i, j :: 0 <= i < j < |ns| ==> ns[i] != ns[j]
  }

  /** No two entries of the table share a name, as in a JavaScript object. */
  ghost predicate DistinctNames(ps: seq<Param>) {
    NoRepeats(Names(ps))
  }

  /** `parameters[name]`, or nothing when the key is absent. */
  function Lookup(ps: seq<Param>, name: string): (r: Option<int>)
    ensures r.None? <==> name !in Names(ps)
    ensures r.Some? ==> Param(name, r.value) in ps
  {
    if ps == [] then None
    else if ps[0].name == name then Some(ps[0].value)
    else Lookup(ps[1..], name)
  }

  /** `{ ...parameters, [name]: value }`: an existing key keeps its place and
      takes the new value; a new key is appended at the end. */
  function SetParam(ps: seq<Param>, name: string, value: int): (r: seq<Param>)
    ensures Lookup(r, name) == Some(value)
    ensures forall n :: n != name ==> Lookup(r, n) == Lookup(ps, n)
  {
    if ps == [] then [Param(name, value)]
    else if ps[0].name == name then [Param(name, value)] + ps[1..]
    else [ps[0]] + SetParam(ps[1..], name, value)
  }

  /** The keys after setting one: the same keys in the same order, with
      `name` appended when it was absent. */
  lemma {:induction false} SetParamNames(ps: seq<Param>, name: string, value: int)
    ensures Names(SetParam(ps, name, value)) ==
      if name in Names(ps) then Names(ps) else Names(ps) + [name]
  {
    if ps == [] {
    } else if ps[0].name == name {
      SetParamNamesHead(ps, name, value);
    } else {
      SetParamNames(ps[1..], name, value);
      SetParamNamesStep(ps, name, value);
    }
  }

  lemma SetParamNamesHead(ps: seq<Param>, name: string, value: int)
    requires ps != [] && ps[0].name == name
    ensures name in Names(ps)
    ensures Names(SetParam(ps, name, value)) == Names(ps)
  {
    assert Names(ps)[0] == name;
  }

  lemma SetParamNamesStep(ps: seq<Param>, name: string, value: int)
    requires ps != [] && ps[0].name != name
    requires Names(SetParam(ps[1..], name, value)) ==
      if name in Names(ps[1..]) then Names(ps[1..]) else Names(ps[1..]) + [name]
    ensures Names(SetParam(ps, name, value)) ==
      if name in Names(ps) then Names(ps) else Names(ps) + [name]
  {
    var tail := Names(ps[1..]);
    var rest := SetParam(ps[1..], name, value);
    assert Names(ps) == [ps[0].name] + tail;
    assert SetParam(ps, name, value) == [ps[0]] + rest;
    assert Names([ps[0]] + rest) == [ps[0].name] + Names(rest) by {
      assert ([ps[0]] + rest)[1..] == rest;
    }
    assert name in Names(ps) <==> name in tail;
    ConsSnoc(ps[0].name, tail, name);
  }

  lemma ConsSnoc<T>(x: T, s: seq<T>, y: T)
    ensures [x] + (s + [y]) == ([x] + s) + [y]
  {
  }

  /** Setting a parameter never introduces a repeated name. */
  lemma SetParamKeepsDistinct(ps: seq<Param>, name: string, value: int)
    requires DistinctNames(ps)
    ensures DistinctNames(SetParam(ps, name, value))
  {
    SetParamNames(ps, name, value);
    var ns := Names(ps);
    if name !in ns {
      var ms := ns + [name];
      forall i, j | 0 <= i < j < |ms| ensures ms[i] != ms[j] {
        if j == |ns| { assert ms[i] == ns[i]; }
      }
    }
  }

  /** The list `toggleEffect(id)` stores: the matching effect's `enabled` flips. */
  function ToggleEffect(effects: seq<Effect>, id: int): (r: seq<Effect>)
    ensures |r| == |effects|
    ensures forall i :: 0 <= i < |effects| && effects[i].id == id ==>
      r[i] == effects[i].(enabled := !effects[i].enabled)
    ensures forall i :: 0 <= i < |effects| && effects[i].id != id ==> r[i] == effects[i]
  {
    MapWhere(effects, (e: Effect) => e.id == id, (e: Effect) => e.(enabled := !e.enabled))
  }

  /** The list `updateParameter(id, name, value)` stores: the matching
      effect's parameter table gets `name` set to `value`, with no clamping. */
  function UpdateParameter(effects: seq<Effect>, id: int, name: string, value: int): (r: seq<Effect>)
    ensures |r| == |effects|
    ensures forall i :: 0 <= i < |effects| && effects[i].id == id ==>
      r[i] == effects[i].(parameters := SetParam(effects[i].parameters, name, value))
    ensures forall i :: 0 <= i < |effects| && effects[i].id != id ==> r[i] == effects[i]
  {
    MapWhere(effects, (e: Effect) => e.id == id,
             (e: Effect) => e.(parameters := SetParam(e.parameters, name, value)))
  }

  /** Toggling the same effect twice restores the rack. */
  lemma ToggleTwice(effects: seq<Effect>, id: int)
    ensures ToggleEffect(ToggleEffect(effects, id), id) == effects
  {
    var once := ToggleEffect(effects, id);
    var twice := ToggleEffect(once, id);
    assert forall i :: 0 <= i < |effects| ==> twice[i] == effects[i];
  }

  /** Both edits are no-ops for an id no effect has. */
  lemma UnknownIdIsNoOp(effects: seq<Effect>, id: int, name: string, value: int)
    requires forall i :: 0 <= i < |effects| ==> effects[i].id != id
    ensures ToggleEffect(effects, id) == effects
    ensures UpdateParameter(effects, id, name, value) == effects
  {
  }

  /** Setting a parameter, then reading it back: the new value under that
      name, every other parameter and the `enabled` flag as before. */
  lemma UpdateParameterReadBack(effects: seq<Effect>, k: int, name: string, value: int)
    requires 0 <= k < |effects|
    ensures var r := UpdateParameter(effects, effects[k].id, name, value);
      && Lookup(r[k].parameters, name) == Some(value)
      && (forall n :: n != name ==> Lookup(r[k].parameters, n) == Lookup(effects[k].parameters, n))
      && r[k].enabled == effects[k].enabled
      && r[k].id == effects[k].id && r[k].name == effects[k].name && r[k].kind == effects[k].kind
  {
  }

  /** The slider bounds for a parameter: `threshold` runs from -60 to 0,
      `time` from 0 to 1000, every other parameter from 0 to 100. */
  function SliderRange(name: string): (bounds: (int, int))
    ensures bounds.0 < bounds.1
    ensures bounds.1 <= 0 <==> name == "threshold"
    ensures bounds.0 == 0 <==> name != "threshold"
    ensures bounds.1 == 1000 <==> name == "time"
    ensures name == "threshold" ==> bounds == (-60, 0)
    ensures name != "threshold" && name != "time" ==> bounds.1 == 100
  {
    if name == "threshold" then (-60, 0)
    else if name == "time" then (0, 1000)
    else (0, 100)
  }

  predicate InSliderRange(p: Param) {
    SliderRange(p.name).0 <= p.value <= SliderRange(p.name).1
  }

  ghost predicate TableInRange(ps: seq<Param>) {
    forall j :: 0 <= j < |ps| ==> InSliderRange(ps[j])
  }

  ghost predicate AllParamsInRange(effects: seq<Effect>) {
    forall i :: 0 <= i < |effects| ==> TableInRange(effects[i].parameters)
  }

  /** A parameter table whose every entry lies in its slider range keeps that
      property when a value from the slider's range is written. */
  lemma {:induction false} SetParamKeepsRange(ps: seq<Param>, name: string, value: int)
    requires TableInRange(ps)
    requires SliderRange(name).0 <= value <= SliderRange(name).1
    ensures TableInRange(SetParam(ps, name, value))
  {
    if ps != [] && ps[0].name != name {
      SetParamKeepsRange(ps[1..], name, value);
    }
  }

  lemma SliderEditKeepsRange(effects: seq<Effect>, id: int, name: string, value: int)
    requires AllParamsInRange(effects)
    requires SliderRange(name).0 <= value <= SliderRange(name).1
    ensures AllParamsInRange(UpdateParameter(effects, id, name, value))
  {
    forall i | 0 <= i < |effects| && effects[i].id == id {
      SetParamKeepsRange(effects[i].parameters, name, value);
    }
  }

  /** The rack's initial table. */
  function InitialEffects(): seq<Effect> {
    [ Effect(1, "EQ", "equalizer", true,
             [Param("low", 0), Param("mid", 0), Param("high", 0)]),
      Effect(2, "Compressor", "dynamics", false,
             [Param("threshold", -12), Param("ratio", 4), Param("attack", 10), Param("release", 100)]),
      Effect(3, "Reverb", "reverb", true,
             [Param("roomSize", 50), Param("damping", 30), Param("wet", 25), Param("dry", 75)]),
      Effect(4, "Delay", "delay", false,
             [Param("time", 250), Param("feedback", 35), Param("wet", 20)]),
      Effect(5, "Distortion", "distortion", false,
             [Param("drive", 30), Param("tone", 50), Param("level", 80)]) ]
  }

  ghost predicate DistinctIds(effects: seq<Effect>) {
    forall i, j :: 0 <= i < j < |effects| ==> effects[i].id != effects[j].id
  }

  ghost predicate WellFormed(effects: seq<Effect>) {
    DistinctIds(effects) && forall i :: 0 <= i < |effects| ==> DistinctNames(effects[i].parameters)
  }

  /** The initial rack: five effects with ids 1 to 5 and only EQ and Reverb on. */
  lemma InitialRack()
    ensures |InitialEffects()| == 5 && DistinctIds(InitialEffects())
    ensures forall i :: 0 <= i < 5 ==> InitialEffects()[i].id == i + 1
    ensures forall i :: 0 <= i < 5 ==>
      (InitialEffects()[i].enabled <==> InitialEffects()[i].name in {"EQ", "Reverb"})
  {
  }

  /** Every initial parameter table has distinct names, and every initial
      value lies inside its slider's range. */
  lemma InitialParameters()
    ensures WellFormed(InitialEffects())
    ensures AllParamsInRange(InitialEffects())
  {
    InitialRack();
    forall i | 0 <= i < 5
      ensures DistinctNames(InitialEffects()[i].parameters)
      ensures TableInRange(InitialEffects()[i].parameters)
    {
      InitialTable(i);
    }
  }

  lemma InitialTable(i: int)
    requires 0 <= i < 5
    ensures DistinctNames(InitialEffects()[i].parameters)
    ensures TableInRange(InitialEffects()[i].parameters)
  {
    if i == 0 { EqTable(); }
    else if i == 1 { CompressorTable(); }
    else if i == 2 { ReverbTable(); }
    else if i == 3 { DelayTable(); }
    else { DistortionTable(); }
  }

  lemma EqTable()
    ensures DistinctNames(InitialEffects()[0].parameters) && TableInRange(InitialEffects()[0].parameters)
  {
    NamedTable(InitialEffects()[0].parameters, ["low", "mid", "high"]);
  }

  lemma CompressorTable()
    ensures DistinctNames(InitialEffects()[1].parameters) && TableInRange(InitialEffects()[1].parameters)
  {
    NamedTable(InitialEffects()[1].parameters, ["threshold", "ratio", "attack", "release"]);
  }

  lemma ReverbTable()
    ensures DistinctNames(InitialEffects()[2].parameters) && TableInRange(InitialEffects()[2].parameters)
  {
    NamedTable(InitialEffects()[2].parameters, ["roomSize", "damping", "wet", "dry"]);
  }

  lemma DelayTable()
    ensures DistinctNames(InitialEffects()[3].parameters) && TableInRange(InitialEffects()[3].parameters)
  {
    NamedTable(InitialEffects()[3].parameters, ["time", "feedback", "wet"]);
  }

  lemma DistortionTable()
    ensures DistinctNames(InitialEffects()[4].parameters) && TableInRange(InitialEffects()[4].parameters)
  {
    NamedTable(InitialEffects()[4].parameters, ["drive", "tone", "level"]);
  }

  lemma NamedTable(ps: seq<Param>, ns: seq<string>)
    requires |ps| == |ns| && forall j :: 0 <= j < |ps| ==> ps[j].name == ns[j]
    requires NoRepeats(ns)
    ensures DistinctNames(ps)
  {
    assert Names(ps) == ns;
  }

  /** Both edits keep ids and parameter names distinct. */
  lemma EditsKeepValid(effects: seq<Effect>, id: int, name: string, value: int)
    requires WellFormed(effects)
    ensures WellFormed(ToggleEffect(effects, id))
    ensures WellFormed(UpdateParameter(effects, id, name, value))
  {
    forall i | 0 <= i < |effects| {
      SetParamKeepsDistinct(effects[i].parameters, name, value);
    }
  }

  /** The rack component: its `effects` state, replaced by `setEffects`. */
  class Rack {
    var effects: seq<Effect>

    ghost predicate Valid() reads this { WellFormed(effects) && AllParamsInRange(effects) }

    constructor ()
      ensures effects == InitialEffects() && Valid()
    {
      effects := InitialEffects();
      InitialParameters();
    }

    /** The switch of the effect with this id. */
    method Toggle(id: int)
      requires Valid()
      modifies this
      ensures Valid()
      ensures effects == ToggleEffect(old(effects), id)
    {
      EditsKeepValid(effects, id, "", 0);
      effects := ToggleEffect(effects, id);
    }

    /** A parameter slider of the effect with this id, moved to `value`
        within the slider's bounds. */
    method SetParameter(id: int, name: string, value: int)
      requires Valid()
      requires SliderRange(name).0 <= value <= SliderRange(name).1
      modifies this
      ensures Valid()
      ensures effects == UpdateParameter(old(effects), id, name, value)
    {
      EditsKeepValid(effects, id, name, value);
      SliderEditKeepsRange(effects, id, name, value);
      effects := UpdateParameter(effects, id, name, value);
    }
  }
}
