/**
 * `selectorToFilter`: what a selector means as a predicate over lights,
 * given the scenes the client holds when the predicate is applied.
 *
 * A scene's states may name other scenes, and nothing stops a scene from
 * naming itself, so evaluation takes a depth bound `fuel`: the number of
 * scene lookups it may still make. `None` means the bound ran out before
 * the answer was reached, where the unbounded recursion would go on.
 */
module Filters {
  import opened Wrappers
  import opened Selectors
  import opened Lights
  import opened Scenes
  import Groups
  import Locations

  /** `indexOf({ $0.toSelector() == selector })`: the first scene addressed by `selector`. */
  function FirstSceneIndex(scenes: seq<Scene>, selector: Selector): (r: Option<nat>)
    ensures r.Some? ==> r.value < |scenes| && SelectorEq(SceneSelector(scenes[r.value]), selector)
    ensures r.Some? ==> forall j :: 0 <= j < r.value ==> !SelectorEq(SceneSelector(scenes[j]), selector)
    ensures r.None? ==> forall j :: 0 <= j < |scenes| ==> !SelectorEq(SceneSelector(scenes[j]), selector)
  {
    if scenes == [] then None
    else if SelectorEq(SceneSelector(scenes[0]), selector) then Some(0)
    else
      match FirstSceneIndex(scenes[1..], selector)
      case None => None
      case Some(i) => Some(i + 1)
  }

  /** The filter of `selector` applied to `light`. */
  function Matches(scenes: seq<Scene>, selector: Selector, light: Light, fuel: nat): (r: Option<bool>)
    ensures selector.kind != SceneID ==> r.Some?
    ensures r.Some? && selector.kind == SceneID ==> fuel > 0
    decreases fuel, 0, 0
  {
    match selector.kind
    case All => Some(true)
    case ID => Some(light.id == selector.value)
    case GroupID => Some(light.group.Some? && light.group.value.id == selector.value)
    case LocationID => Some(light.location.Some? && light.location.value.id == selector.value)
    case Label => Some(light.lightLabel == selector.value)
    case SceneID =>
      if fuel == 0 then None
      else
        match FirstSceneIndex(scenes, selector)
        case None => Some(false)
        case Some(i) => AnyState(scenes, scenes[i].states, light, fuel - 1)
  }

  /** `states.contains { ... }`: stops at the first state whose filter holds. */
  function AnyState(scenes: seq<Scene>, states: seq<State>, light: Light, fuel: nat): (r: Option<bool>)
    ensures r == Some(true) ==>
            exists k {:trigger Matches(scenes, states[k].selector, light, fuel)} ::
              0 <= k < |states| && Matches(scenes, states[k].selector, light, fuel) == Some(true)
    ensures r == Some(false) ==>
            forall k {:trigger Matches(scenes, states[k].selector, light, fuel)} ::
              0 <= k < |states| ==> Matches(scenes, states[k].selector, light, fuel) == Some(false)
    decreases fuel, 1, |states|
  {
    if states == [] then Some(false)
    else
      match Matches(scenes, states[0].selector, light, fuel)
      case None => None
      case Some(true) => Some(true)
      case Some(false) =>
        var rest := AnyState(scenes, states[1..], light, fuel);
        assert forall k :: 1 <= k < |states| ==> states[k] == states[1..][k - 1];
        rest
  }

  /** Selectors other than SceneID decide at once, by one field of the light. */
  lemma DirectSelectors(scenes: seq<Scene>, selector: Selector, light: Light, fuel: nat)
    ensures selector.kind == All ==> Matches(scenes, selector, light, fuel) == Some(true)
    ensures selector.kind == ID ==> Matches(scenes, selector, light, fuel) == Some(light.id == selector.value)
    ensures selector.kind == GroupID ==>
            Matches(scenes, selector, light, fuel) == Some(light.group.Some? && light.group.value.id == selector.value)
    ensures selector.kind == LocationID ==>
            Matches(scenes, selector, light, fuel) == Some(light.location.Some? && light.location.value.id == selector.value)
    ensures selector.kind == Label ==> Matches(scenes, selector, light, fuel) == Some(light.lightLabel == selector.value)
  {
  }

  /** Some state's filter holds, and every earlier state's filter is false. */
  predicate FirstStateMatches(scenes: seq<Scene>, states: seq<State>, light: Light, fuel: nat)
  {
    exists i {:trigger Matches(scenes, states[i].selector, light, fuel)} ::
      0 <= i < |states| && Matches(scenes, states[i].selector, light, fuel) == Some(true) &&
      forall k {:trigger Matches(scenes, states[k].selector, light, fuel)} ::
        0 <= k < i ==> Matches(scenes, states[k].selector, light, fuel) == Some(false)
  }

  /** Every state's filter is false. */
  predicate EveryStateFails(scenes: seq<Scene>, states: seq<State>, light: Light, fuel: nat)
  {
    forall i {:trigger Matches(scenes, states[i].selector, light, fuel)} ::
      0 <= i < |states| ==> Matches(scenes, states[i].selector, light, fuel) == Some(false)
  }

  /** `contains` holds exactly at a first matching state with all earlier states not matching. */
  lemma {:induction false} AnyStateTrue(scenes: seq<Scene>, states: seq<State>, light: Light, fuel: nat)
    ensures AnyState(scenes, states, light, fuel) == Some(true) <==> FirstStateMatches(scenes, states, light, fuel)
    decreases |states|
  {
    if states != [] {
      AnyStateTrue(scenes, states[1..], light, fuel);
      assert forall k :: 1 <= k < |states| ==> states[1..][k - 1] == states[k];
      if Matches(scenes, states[0].selector, light, fuel) == Some(false) {
        if exists i :: 0 <= i < |states| && Matches(scenes, states[i].selector, light, fuel) == Some(true) &&
                       forall k :: 0 <= k < i ==> Matches(scenes, states[k].selector, light, fuel) == Some(false) {
          var i :| 0 <= i < |states| && Matches(scenes, states[i].selector, light, fuel) == Some(true) &&
                   forall k :: 0 <= k < i ==> Matches(scenes, states[k].selector, light, fuel) == Some(false);
          assert i > 0;
          assert states[1..][i - 1] == states[i];
          assert forall k :: 0 <= k < i - 1 ==> states[1..][k] == states[k + 1];
        }
        if AnyState(scenes, states, light, fuel) == Some(true) {
          var i :| 0 <= i < |states[1..]| && Matches(scenes, states[1..][i].selector, light, fuel) == Some(true) &&
                   forall k :: 0 <= k < i ==> Matches(scenes, states[1..][k].selector, light, fuel) == Some(false);
          assert states[i + 1] == states[1..][i];
          forall k | 0 <= k < i + 1 ensures Matches(scenes, states[k].selector, light, fuel) == Some(false) {
            if k > 0 { assert states[k] == states[1..][k - 1]; }
          }
        }
      }
    }
  }

  /** `contains` is false exactly when every state's filter is false. */
  lemma {:induction false} AnyStateFalse(scenes: seq<Scene>, states: seq<State>, light: Light, fuel: nat)
    ensures AnyState(scenes, states, light, fuel) == Some(false) <==> EveryStateFails(scenes, states, light, fuel)
    decreases |states|
  {
    if states != [] {
      AnyStateFalse(scenes, states[1..], light, fuel);
      assert forall k :: 1 <= k < |states| ==> states[1..][k - 1] == states[k];
    }
  }

  /** A SceneID selector that addresses no scene rejects every light. */
  lemma NoAddressedSceneRejects(scenes: seq<Scene>, selector: Selector, light: Light, fuel: nat)
    requires selector.kind == SceneID && fuel > 0
    requires forall j :: 0 <= j < |scenes| ==> scenes[j].uuid != selector.value
    ensures Matches(scenes, selector, light, fuel) == Some(false)
  {
  }

  /**
   * When scene j is the first addressed by a SceneID selector, the selector
   * holds iff a state of scene j matches with all earlier states not matching,
   * and fails iff every state fails.
   */
  lemma SceneSelectorMeaning(scenes: seq<Scene>, selector: Selector, light: Light, fuel: nat, j: int)
    requires selector.kind == SceneID && fuel > 0
    requires 0 <= j < |scenes| && scenes[j].uuid == selector.value
    requires forall k :: 0 <= k < j ==> scenes[k].uuid != selector.value
    ensures Matches(scenes, selector, light, fuel) == Some(true) <==>
            FirstStateMatches(scenes, scenes[j].states, light, fuel - 1)
    ensures Matches(scenes, selector, light, fuel) == Some(false) <==>
            EveryStateFails(scenes, scenes[j].states, light, fuel - 1)
  {
    SceneSelectorTrue(scenes, selector, light, fuel, j);
    SceneSelectorFalse(scenes, selector, light, fuel, j);
  }

  lemma SceneSelectorTrue(scenes: seq<Scene>, selector: Selector, light: Light, fuel: nat, j: int)
    requires selector.kind == SceneID && fuel > 0
    requires 0 <= j < |scenes| && scenes[j].uuid == selector.value
    requires forall k :: 0 <= k < j ==> scenes[k].uuid != selector.value
    ensures Matches(scenes, selector, light, fuel) == Some(true) <==>
            FirstStateMatches(scenes, scenes[j].states, light, fuel - 1)
  {
    if Matches(scenes, selector, light, fuel) == Some(true) {
      SceneSelectorTrueOnlyIf(scenes, selector, light, fuel, j);
    } else if FirstStateMatches(scenes, scenes[j].states, light, fuel - 1) {
      SceneSelectorTrueIf(scenes, selector, light, fuel, j);
    }
  }

  lemma SceneSelectorTrueOnlyIf(scenes: seq<Scene>, selector: Selector, light: Light, fuel: nat, j: int)
    requires selector.kind == SceneID && fuel > 0
    requires 0 <= j < |scenes| && scenes[j].uuid == selector.value
    requires forall k :: 0 <= k < j ==> scenes[k].uuid != selector.value
    requires Matches(scenes, selector, light, fuel) == Some(true)
    ensures FirstStateMatches(scenes, scenes[j].states, light, fuel - 1)
  {
    SceneSelectorIsAnyState(scenes, selector, light, fuel, j);
    AnyStateTrue(scenes, scenes[j].states, light, fuel - 1);
  }

  lemma SceneSelectorTrueIf(scenes: seq<Scene>, selector: Selector, light: Light, fuel: nat, j: int)
    requires selector.kind == SceneID && fuel > 0
    requires 0 <= j < |scenes| && scenes[j].uuid == selector.value
    requires forall k :: 0 <= k < j ==> scenes[k].uuid != selector.value
    requires FirstStateMatches(scenes, scenes[j].states, light, fuel - 1)
    ensures Matches(scenes, selector, light, fuel) == Some(true)
  {
    SceneSelectorIsAnyState(scenes, selector, light, fuel, j);
    AnyStateTrue(scenes, scenes[j].states, light, fuel - 1);
  }

  lemma SceneSelectorFalse(scenes: seq<Scene>, selector: Selector, light: Light, fuel: nat, j: int)
    requires selector.kind == SceneID && fuel > 0
    requires 0 <= j < |scenes| && scenes[j].uuid == selector.value
    requires forall k :: 0 <= k < j ==> scenes[k].uuid != selector.value
    ensures Matches(scenes, selector, light, fuel) == Some(false) <==>
            EveryStateFails(scenes, scenes[j].states, light, fuel - 1)
  {
    SceneSelectorIsAnyState(scenes, selector, light, fuel, j);
    AnyStateFalse(scenes, scenes[j].states, light, fuel - 1);
  }

  /** The selector's answer is the search over the first addressed scene's states. */
  lemma SceneSelectorIsAnyState(scenes: seq<Scene>, selector: Selector, light: Light, fuel: nat, j: int)
    requires selector.kind == SceneID && fuel > 0
    requires 0 <= j < |scenes| && scenes[j].uuid == selector.value
    requires forall k :: 0 <= k < j ==> scenes[k].uuid != selector.value
    ensures Matches(scenes, selector, light, fuel) == AnyState(scenes, scenes[j].states, light, fuel - 1)
  {
    FirstSceneAt(scenes, selector, j);
  }

  /** The scene found is the first one whose uuid is the selector's value. */
  lemma FirstSceneAt(scenes: seq<Scene>, selector: Selector, j: int)
    requires selector.kind == SceneID
    requires 0 <= j < |scenes| && scenes[j].uuid == selector.value
    requires forall k :: 0 <= k < j ==> scenes[k].uuid != selector.value
    ensures FirstSceneIndex(scenes, selector) == Some(j)
  {
    var r := FirstSceneIndex(scenes, selector);
    assert SelectorEq(SceneSelector(scenes[j]), selector);
    if r.Some? {
      assert !SelectorEq(SceneSelector(scenes[r.value]), selector) || r.value >= j;
    }
  }

  /** Once an answer is reached, more depth never changes it. */
  lemma {:induction false} MatchesMoreFuel(scenes: seq<Scene>, selector: Selector, light: Light, fuel: nat, more: nat)
    requires fuel <= more && Matches(scenes, selector, light, fuel).Some?
    ensures Matches(scenes, selector, light, more) == Matches(scenes, selector, light, fuel)
    decreases fuel, 0, 0
  {
    if selector.kind == SceneID {
      match FirstSceneIndex(scenes, selector)
      case None =>
      case Some(i) => AnyStateMoreFuel(scenes, scenes[i].states, light, fuel - 1, more - 1);
    }
  }

  lemma {:induction false} AnyStateMoreFuel(scenes: seq<Scene>, states: seq<State>, light: Light, fuel: nat, more: nat)
    requires fuel <= more && AnyState(scenes, states, light, fuel).Some?
    ensures AnyState(scenes, states, light, more) == AnyState(scenes, states, light, fuel)
    decreases fuel, 1, |states|
  {
    if states != [] {
      MatchesMoreFuel(scenes, states[0].selector, light, fuel, more);
      if Matches(scenes, states[0].selector, light, fuel) == Some(false) {
        AnyStateMoreFuel(scenes, states[1..], light, fuel, more);
      }
    }
  }

  /** Scenes whose states never name a scene are decided with one level of depth. */
  lemma {:induction false} FlatScenesDecide(scenes: seq<Scene>, selector: Selector, light: Light, fuel: nat)
    requires forall j, k :: 0 <= j < |scenes| && 0 <= k < |scenes[j].states| ==>
                            scenes[j].states[k].selector.kind != SceneID
    requires fuel >= 1
    ensures Matches(scenes, selector, light, fuel).Some?
  {
    if selector.kind == SceneID {
      match FirstSceneIndex(scenes, selector)
      case None =>
      case Some(i) => FlatStatesDecide(scenes, scenes[i].states, light, fuel - 1);
    }
  }

  lemma {:induction false} FlatStatesDecide(scenes: seq<Scene>, states: seq<State>, light: Light, fuel: nat)
    requires forall k :: 0 <= k < |states| ==> states[k].selector.kind != SceneID
    ensures AnyState(scenes, states, light, fuel).Some?
    decreases |states|
  {
    if states != [] {
      FlatStatesDecide(scenes, states[1..], light, fuel);
    }
  }

  /** With no cycle guard, a scene whose first state names the scene itself never reaches an answer. */
  lemma {:induction false} SelfReferentialSceneNeverAnswers(scenes: seq<Scene>, light: Light, fuel: nat)
    requires |scenes| > 0 && |scenes[0].states| > 0
    requires scenes[0].states[0].selector == SceneSelector(scenes[0])
    ensures Matches(scenes, SceneSelector(scenes[0]), light, fuel) == None
  {
    if fuel > 0 {
      SelfReferentialSceneNeverAnswers(scenes, light, fuel - 1);
    }
  }

  /** `allLightTarget()` targets the All selector. */
  function AllLightSelector(): (s: Selector)
    ensures s.kind == All
  {
    Selector(All, "")
  }

  lemma AllLightSelectorMatchesEveryLight(scenes: seq<Scene>, light: Light, fuel: nat)
    ensures Matches(scenes, AllLightSelector(), light, fuel) == Some(true)
  {
  }

  /** A light's own selector picks out exactly the lights with its id. */
  lemma LightSelectorMatches(scenes: seq<Scene>, l: Light, other: Light, fuel: nat)
    ensures Matches(scenes, ToSelector(l), l, fuel) == Some(true)
    ensures Matches(scenes, ToSelector(l), other, fuel) == Some(other.id == l.id)
  {
  }

  /** A group's selector picks out exactly the lights in a group with its id. */
  lemma GroupSelectorMatches(scenes: seq<Scene>, g: Groups.Group, light: Light, fuel: nat)
    ensures Matches(scenes, Groups.ToSelector(g), light, fuel) ==
            Some(light.group.Some? && light.group.value.id == g.id)
    ensures light.group.None? ==> Matches(scenes, Groups.ToSelector(g), light, fuel) == Some(false)
  {
  }

  /** A location's selector picks out exactly the lights at a location with its id, never one without. */
  lemma LocationSelectorMatches(scenes: seq<Scene>, loc: Locations.Location, light: Light, fuel: nat)
    ensures Matches(scenes, Locations.ToSelector(loc), light, fuel) ==
            Some(light.location.Some? && light.location.value.id == loc.id)
    ensures light.location.None? ==> Matches(scenes, Locations.ToSelector(loc), light, fuel) == Some(false)
  {
  }

  /** A scene with one `group_id:g1` state matches the lights of group g1 and no light without a group. */
  lemma SceneOfOneGroupState(s: Scene, light: Light, fuel: nat)
    requires |s.states| == 1 && s.states[0].selector == Selector(GroupID, "g1")
    requires fuel >= 1
    ensures Matches([s], SceneSelector(s), light, fuel) == Some(light.group.Some? && light.group.value.id == "g1")
    ensures light.group.None? ==> Matches([s], SceneSelector(s), light, fuel) == Some(false)
  {
    assert FirstSceneIndex([s], SceneSelector(s)) == Some(0);
    assert [s][0] == s;
    assert s.states[1..] == [];
    assert Matches([s], s.states[0].selector, light, fuel - 1) == Some(light.group.Some? && light.group.value.id == "g1");
    assert AnyState([s], s.states[1..], light, fuel - 1) == Some(false);
  }
}
