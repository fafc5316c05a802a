/** The mock smart-lights plugin: a fixed table of three mutable light
    records that can be listed, all switched off, or switched one at a time. */
module AIPlugins {
  import opened Wrappers

  /** One light record; the plugin updates `isOn` in place. */
  class LightModel {
    var id: int
    var name: Option<string>
    var isOn: Option<bool>

    constructor(id: int, name: Option<string>, isOn: Option<bool>)
      ensures this.id == id && this.name == name && this.isOn == isOn
    {
      this.id, this.name, this.isOn := id, name, isOn;
    }
  }

  /** The value of one light at a moment. */
  datatype LightState = LightState(id: int, name: Option<string>, isOn: Option<bool>)

  /** The table as first populated: three lights, all off. */
  const InitialLights: seq<LightState> := [
    LightState(1, Some("Table Lamp"), Some(false)),
    LightState(2, Some("Porch light"), Some(false)),
    LightState(3, Some("Chandelier"), Some(false))
  ]

  /** The index of the first light with `id` (`FirstOrDefault`), if any. */
  function FindLight(lights: seq<LightState>, id: int): (r: Option<nat>)
    ensures r.None? <==> forall k :: 0 <= k < |lights| ==> lights[k].id != id
    ensures r.Some? ==> r.value < |lights| && lights[r.value].id == id
                        && forall k :: 0 <= k < r.value ==> lights[k].id != id
  {
    if lights == [] then None
    else if lights[0].id == id then Some(0)
    else
      match FindLight(lights[1..], id)
      case None => None
      case Some(k) => Some(k + 1)
  }

  /** Every light switched off; ids, names and count kept. */
  function ResetAll(lights: seq<LightState>): (r: seq<LightState>)
    ensures |r| == |lights|
    ensures forall k :: 0 <= k < |r| ==> r[k] == lights[k].(isOn := Some(false))
  {
    seq(|lights|, k requires 0 <= k < |lights| => lights[k].(isOn := Some(false)))
  }

  /** The first light with `id` switched to `on`; the table unchanged when
      there is none. */
  function SetLight(lights: seq<LightState>, id: int, on: bool): (r: seq<LightState>)
    ensures |r| == |lights|
    ensures forall k :: 0 <= k < |r| ==> r[k].id == lights[k].id && r[k].name == lights[k].name
    ensures FindLight(lights, id).None? ==> r == lights
    ensures FindLight(lights, id).Some? ==>
              && r[FindLight(lights, id).value].isOn == Some(on)
              && forall j :: 0 <= j < |r| && j != FindLight(lights, id).value ==> r[j] == lights[j]
  {
    match FindLight(lights, id)
    case None => lights
    case Some(k) => lights[k := lights[k].(isOn := Some(on))]
  }

  /** Switching a light twice to the same state is switching it once. */
  lemma {:induction false} SetLightIdempotent(lights: seq<LightState>, id: int, on: bool)
    ensures SetLight(SetLight(lights, id, on), id, on) == SetLight(lights, id, on)
  {
    var once := SetLight(lights, id, on);
    SameIdsSameMatch(lights, once, id);
  }

  /** Tables with the same ids find the same first match. */
  lemma {:induction false} SameIdsSameMatch(a: seq<LightState>, b: seq<LightState>, id: int)
    requires |a| == |b|
    requires forall k :: 0 <= k < |a| ==> a[k].id == b[k].id
    ensures FindLight(a, id) == FindLight(b, id)
  {
    if a != [] && a[0].id != id {
      SameIdsSameMatch(a[1..], b[1..], id);
    }
  }

  /** Resetting twice is resetting once. */
  lemma ResetAllIdempotent(lights: seq<LightState>)
    ensures ResetAll(ResetAll(lights)) == ResetAll(lights)
  {
  }

  /** The table the plugin starts with: lights 1, 2 and 3, all off, and an
      id is found in it exactly when it is one of those three. */
  lemma InitialTableShape()
    ensures |InitialLights| == 3
    ensures forall k :: 0 <= k < 3 ==> InitialLights[k].id == k + 1 && InitialLights[k].isOn == Some(false)
    ensures forall id :: FindLight(InitialLights, id).Some? <==> 1 <= id <= 3
  {
    forall id ensures FindLight(InitialLights, id).Some? <==> 1 <= id <= 3 {
      if 1 <= id <= 3 {
        assert InitialLights[id - 1].id == id;
      }
    }
  }

  class LightsPlugin {
    /** `_lights`: the list reference never changes; its records do. */
    const lights: seq<LightModel>

    /** The records are distinct objects, so updating one leaves the others. */
    ghost predicate Valid() {
      forall i, j :: 0 <= i < j < |lights| ==> lights[i] != lights[j]
    }

    /** The table's current value. */
    ghost function State(): (s: seq<LightState>)
      reads lights
      ensures |s| == |lights|
    {
      seq(|lights|, k reads lights requires 0 <= k < |lights| =>
        LightState(lights[k].id, lights[k].name, lights[k].isOn))
    }

    constructor()
      ensures Valid() && fresh(lights)
      ensures State() == InitialLights
    {
      var lamp := new LightModel(1, Some("Table Lamp"), Some(false));
      var porch := new LightModel(2, Some("Porch light"), Some(false));
      var chandelier := new LightModel(3, Some("Chandelier"), Some(false));
      lights := [lamp, porch, chandelier];
    }

    /** `reset_lights`: every light off, in place; returns the list itself. */
    method ResetLights() returns (r: seq<LightModel>)
      requires Valid()
      modifies lights
      ensures r == lights
      ensures State() == ResetAll(old(State()))
    {
      for i := 0 to |lights|
        invariant forall k :: 0 <= k < i ==> lights[k].isOn == Some(false)
        invariant forall k :: 0 <= k < |lights| ==>
                    lights[k].id == old(lights[k].id) && lights[k].name == old(lights[k].name)
        invariant forall k :: i <= k < |lights| ==> lights[k].isOn == old(lights[k].isOn)
      {
        lights[i].isOn := Some(false);
      }
      r := lights;
    }

    /** `get_lights`: the list itself, nothing changed. */
    method GetLights() returns (r: seq<LightModel>)
      ensures r == lights
    {
      r := lights;
    }

    /** `change_state`: the first light with `id` takes `isOn` and is
        returned; with no such light, null and nothing changed. */
    method ChangeState(id: int, isOn: bool) returns (r: LightModel?)
      requires Valid()
      modifies lights
      ensures FindLight(old(State()), id).None? <==> r == null
      ensures r != null ==> r == lights[FindLight(old(State()), id).value]
      ensures State() == SetLight(old(State()), id, isOn)
    {
      ghost var before := State();
      var k := 0;
      while k < |lights| && lights[k].id != id
        invariant 0 <= k <= |lights|
        invariant forall j :: 0 <= j < k ==> before[j].id != id
      {
        k := k + 1;
      }
      if k == |lights| {
        return null;
      }
      assert before[k].id == id;
      assert FindLight(before, id) == Some(k);
      r := lights[k];
      r.isOn := Some(isOn);
      assert forall j :: 0 <= j < |lights| && j != k ==> lights[j] != r;
    }
  }
}
