/**
 * `dataToScenes`: the scenes GET response, decoded by skipping every
 * malformed scene and every state without a usable selector.
 */
module SceneDecoding {
  import opened Wrappers
  import opened Json
  import opened Errors
  import opened Selectors
  import opened Scenes
  import LightDecoding

  /** Keeps the decodable elements, in order, dropping the rest. */
  function FilterMap<A, B>(f: A -> Option<B>, xs: seq<A>): seq<B>
  {
    if xs == [] then []
    else
      var init := FilterMap(f, xs[..|xs| - 1]);
      match f(xs[|xs| - 1])
      case Some(y) => init + [y]
      case None => init
  }

  /** Dropping distributes over concatenation, so the kept elements stay in input order. */
  lemma {:induction false} FilterMapAppend<A, B>(f: A -> Option<B>, xs: seq<A>, ys: seq<A>)
    ensures FilterMap(f, xs + ys) == FilterMap(f, xs) + FilterMap(f, ys)
    decreases |ys|
  {
    if ys == [] {
      assert xs + ys == xs;
    } else {
      var zs := xs + ys;
      assert zs[..|zs| - 1] == xs + ys[..|ys| - 1];
      assert zs[|zs| - 1] == ys[|ys| - 1];
      FilterMapAppend(f, xs, ys[..|ys| - 1]);
    }
  }

  /** Everything kept is the decoding of some input element. */
  lemma {:induction false} FilterMapSound<A, B>(f: A -> Option<B>, xs: seq<A>, y: B)
    requires y in FilterMap(f, xs)
    ensures exists i :: 0 <= i < |xs| && f(xs[i]) == Some(y)
  {
    var init := FilterMap(f, xs[..|xs| - 1]);
    if y in init {
      FilterMapSound(f, xs[..|xs| - 1], y);
      var i :| 0 <= i < |xs| - 1 && f(xs[..|xs| - 1][i]) == Some(y);
      assert xs[..|xs| - 1][i] == xs[i];
    } else {
      assert f(xs[|xs| - 1]) == Some(y);
    }
  }

  /** Every decodable element is kept. */
  lemma {:induction false} FilterMapComplete<A, B>(f: A -> Option<B>, xs: seq<A>, i: int)
    requires 0 <= i < |xs| && f(xs[i]).Some?
    ensures f(xs[i]).value in FilterMap(f, xs)
  {
    if i < |xs| - 1 {
      FilterMapComplete(f, xs[..|xs| - 1], i);
    }
  }

  /** When nothing is dropped, the output is the input decoded element by element. */
  lemma {:induction false} FilterMapNoneDropped<A, B>(f: A -> Option<B>, xs: seq<A>)
    requires forall i :: 0 <= i < |xs| ==> f(xs[i]).Some?
    ensures |FilterMap(f, xs)| == |xs|
    ensures forall i :: 0 <= i < |xs| ==> FilterMap(f, xs)[i] == f(xs[i]).value
  {
    if xs != [] {
      var init := xs[..|xs| - 1];
      assert forall i :: 0 <= i < |init| ==> init[i] == xs[i];
      FilterMapNoneDropped(f, init);
    }
  }

  lemma FilterMapSnoc<A, B>(f: A -> Option<B>, xs: seq<A>, i: int)
    requires 0 <= i < |xs|
    ensures FilterMap(f, xs[..i + 1]) ==
            FilterMap(f, xs[..i]) + (if f(xs[i]).Some? then [f(xs[i]).value] else [])
  {
    assert xs[..i + 1][..i] == xs[..i];
  }

  /** `power` is present only as a string, and then means on exactly for `"on"`. */
  function DecodePower(o: Object): Option<bool>
  {
    match StringField(o, "power")
    case Some(p) => Some(p == "on")
    case None => None
  }

  /** A state needs a selector string that parses; its other fields are optional. */
  function DecodeState(o: Object): (r: Option<State>)
    ensures r.Some? <==> StringField(o, "selector").Some? && Parse(StringField(o, "selector").value).Some?
    ensures r.Some? ==>
      && Some(r.value.selector) == Parse(StringField(o, "selector").value)
      && r.value.brightness == DoubleField(o, "brightness")
      && (r.value.power.Some? <==> StringField(o, "power").Some?)
      && (r.value.power == Some(true) <==> StringField(o, "power") == Some("on"))
    ensures r.Some? ==>
      (r.value.color.Some? <==>
        ObjectField(o, "color").Some? &&
        DoubleField(ObjectField(o, "color").value, "hue").Some? &&
        DoubleField(ObjectField(o, "color").value, "saturation").Some? &&
        IntField(ObjectField(o, "color").value, "kelvin").Some?)
    ensures r.Some? && r.value.color.Some? ==>
      && Some(r.value.color.value.hue) == DoubleField(ObjectField(o, "color").value, "hue")
      && Some(r.value.color.value.saturation) == DoubleField(ObjectField(o, "color").value, "saturation")
      && Some(r.value.color.value.kelvin) == IntField(ObjectField(o, "color").value, "kelvin")
  {
    match StringField(o, "selector")
    case None => None
    case Some(raw) =>
      match Parse(raw)
      case None => None
      case Some(selector) =>
        var color := match ObjectField(o, "color") case Some(c) => LightDecoding.DecodeColor(c) case None => None;
        Some(State(selector, DoubleField(o, "brightness"), color, DecodePower(o)))
  }

  /** A scene needs a string uuid, a string name and an array of state objects. */
  function DecodeScene(o: Object): (r: Option<Scene>)
    ensures r.Some? <==>
      StringField(o, "uuid").Some? && StringField(o, "name").Some? && ObjectArrayField(o, "states").Some?
    ensures r.Some? ==>
      && Some(r.value.uuid) == StringField(o, "uuid")
      && Some(r.value.name) == StringField(o, "name")
      && r.value.states == FilterMap(DecodeState, ObjectArrayField(o, "states").value)
  {
    match (StringField(o, "uuid"), StringField(o, "name"), ObjectArrayField(o, "states"))
    case (Some(uuid), Some(name), Some(states)) => Some(Scene(uuid, name, FilterMap(DecodeState, states)))
    case _ => None
  }

  /** The whole of `dataToScenes` over an already parsed body. */
  function ScenesFromBody(body: Body<NSError>): (seq<Scene>, Option<NSError>)
  {
    match body
    case NoData => ([], Some(NoDataError))
    case Unparseable(e) => ([], Some(e))
    case Parsed(root) => (FilterMap(DecodeScene, AsObjectArray(root).GetOr([])), None)
  }

  /** The outer loop of `dataToScenes`: one scene per well-formed object. */
  method DataToScenes(body: Body<NSError>) returns (scenes: seq<Scene>, error: Option<NSError>)
    ensures (scenes, error) == ScenesFromBody(body)
  {
    if body.NoData? {
      return [], Some(NoDataError);
    }
    if body.Unparseable? {
      return [], Some(body.error);
    }
    var objects := AsObjectArray(body.root).GetOr([]);
    scenes := [];
    var i := 0;
    while i < |objects|
      invariant 0 <= i <= |objects|
      invariant scenes == FilterMap(DecodeScene, objects[..i])
    {
      var o := objects[i];
      FilterMapSnoc(DecodeScene, objects, i);
      var uuid, name, stateObjects := StringField(o, "uuid"), StringField(o, "name"), ObjectArrayField(o, "states");
      if uuid.Some? && name.Some? && stateObjects.Some? {
        var states := DecodeStates(stateObjects.value);
        scenes := scenes + [Scene(uuid.value, name.value, states)];
      }
      i := i + 1;
    }
    assert objects[..i] == objects;
    error := None;
  }

  /** The inner loop of `dataToScenes`: the states of one scene, skipping those without a usable selector. */
  method DecodeStates(stateObjects: seq<Object>) returns (states: seq<State>)
    ensures states == FilterMap(DecodeState, stateObjects)
  {
    states := [];
    var j := 0;
    while j < |stateObjects|
      invariant 0 <= j <= |stateObjects|
      invariant states == FilterMap(DecodeState, stateObjects[..j])
    {
      FilterMapSnoc(DecodeState, stateObjects, j);
      var state := DecodeState(stateObjects[j]);
      if state.Some? {
        states := states + [state.value];
      }
      j := j + 1;
    }
    assert stateObjects[..j] == stateObjects;
  }

  /**
   * No data and an unparseable body give no scenes and an error; once the
   * body has parsed there is no error, and the scenes kept are exactly the
   * well-formed ones.
   */
  lemma ScenesFromBodyOutcomes(body: Body<NSError>, scene: Scene)
    ensures body.NoData? ==> ScenesFromBody(body) == ([], Some(NoDataError))
    ensures body.Unparseable? ==> ScenesFromBody(body) == ([], Some(body.error))
    ensures body.Parsed? ==> ScenesFromBody(body).1 == None
    ensures body.Parsed? && AsObjectArray(body.root).None? ==> ScenesFromBody(body).0 == []
    ensures body.Parsed? && AsObjectArray(body.root).Some? ==>
      var os := AsObjectArray(body.root).value;
      (scene in ScenesFromBody(body).0 <==> exists i :: 0 <= i < |os| && DecodeScene(os[i]) == Some(scene))
  {
    if body.Parsed? && AsObjectArray(body.root).Some? {
      var os := AsObjectArray(body.root).value;
      if scene in ScenesFromBody(body).0 {
        FilterMapSound(DecodeScene, os, scene);
      }
      if exists i :: 0 <= i < |os| && DecodeScene(os[i]) == Some(scene) {
        var i :| 0 <= i < |os| && DecodeScene(os[i]) == Some(scene);
        FilterMapComplete(DecodeScene, os, i);
      }
    }
  }

  /** A state whose selector is missing or unparseable is dropped without voiding its scene. */
  lemma BadStateIsSkipped(o: Object, before: seq<Object>, bad: Object, after: seq<Object>)
    requires StringField(o, "uuid").Some? && StringField(o, "name").Some?
    requires ObjectArrayField(o, "states") == Some(before + [bad] + after)
    requires DecodeState(bad).None?
    ensures DecodeScene(o).Some?
    ensures DecodeScene(o).value.states == FilterMap(DecodeState, before) + FilterMap(DecodeState, after)
  {
    FilterMapAppend(DecodeState, before + [bad], after);
    FilterMapAppend(DecodeState, before, [bad]);
    assert [bad][..0] == [];
  }
}
