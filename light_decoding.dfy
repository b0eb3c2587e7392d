/**
 * `dataToLights`: the lights GET response as an array of light objects,
 * decoded all-or-nothing.
 */
module LightDecoding {
  import opened Wrappers
  import opened Json
  import opened Errors
  import opened Colors
  import opened Lights
  import Groups
  import Locations

  function DecodeColor(o: Object): Option<Color>
  {
    match (DoubleField(o, "hue"), DoubleField(o, "saturation"), IntField(o, "kelvin"))
    case (Some(hue), Some(saturation), Some(kelvin)) => Some(Color(hue, saturation, kelvin))
    case _ => None
  }

  /** A group only when the `group` object has a string id and a string name. */
  function DecodeGroup(o: Object): Option<Groups.Group>
  {
    match ObjectField(o, "group")
    case None => None
    case Some(g) =>
      match (StringField(g, "id"), StringField(g, "name"))
      case (Some(id), Some(name)) => Some(Groups.Group(id, name))
      case _ => None
  }

  function DecodeLocation(o: Object): Option<Locations.Location>
  {
    match ObjectField(o, "location")
    case None => None
    case Some(l) =>
      match (StringField(l, "id"), StringField(l, "name"))
      case (Some(id), Some(name)) => Some(Locations.Location(id, name))
      case _ => None
  }

  /** The properties every light object must carry, with their types. */
  predicate HasRequiredProperties(o: Object)
  {
    && StringField(o, "id").Some? && StringField(o, "power").Some? && DoubleField(o, "brightness").Some?
    && ObjectField(o, "color").Some?
    && DoubleField(ObjectField(o, "color").value, "hue").Some?
    && DoubleField(ObjectField(o, "color").value, "saturation").Some?
    && IntField(ObjectField(o, "color").value, "kelvin").Some?
    && StringField(o, "label").Some? && BoolField(o, "connected").Some?
  }

  /** One light object; `now` is the time stamped on it as `touchedAt`. */
  function DecodeLight(o: Object, now: Time): (r: Option<Light>)
    ensures r.Some? <==> HasRequiredProperties(o)
    ensures r.Some? ==>
      && Some(r.value.brightness) == DoubleField(o, "brightness")
      && Some(r.value.lightLabel) == StringField(o, "label")
      && Some(r.value.connected) == BoolField(o, "connected")
      && Some(r.value.color.hue) == DoubleField(ObjectField(o, "color").value, "hue")
      && Some(r.value.color.saturation) == DoubleField(ObjectField(o, "color").value, "saturation")
      && Some(r.value.color.kelvin) == IntField(ObjectField(o, "color").value, "kelvin")
  {
    var color := match ObjectField(o, "color") case Some(c) => DecodeColor(c) case None => None;
    match (StringField(o, "id"), StringField(o, "power"), DoubleField(o, "brightness"), color,
           StringField(o, "label"), BoolField(o, "connected"))
    case (Some(id), Some(power), Some(brightness), Some(c), Some(lightLabel), Some(connected)) =>
      Some(Light(id, power == "on", brightness, c, lightLabel, connected, DecodeGroup(o), DecodeLocation(o), Some(now)))
    case _ => None
  }

  /** What a decoded light records about its object. */
  lemma DecodedLightFields(o: Object, now: Time)
    requires DecodeLight(o, now).Some?
    ensures var l := DecodeLight(o, now).value;
      && Some(l.id) == StringField(o, "id")
      && (l.power <==> StringField(o, "power") == Some("on"))
      && l.touchedAt == Some(now)
      && (l.group.Some? <==> ObjectField(o, "group").Some? &&
                             StringField(ObjectField(o, "group").value, "id").Some? &&
                             StringField(ObjectField(o, "group").value, "name").Some?)
      && (l.location.Some? <==> ObjectField(o, "location").Some? &&
                                StringField(ObjectField(o, "location").value, "id").Some? &&
                                StringField(ObjectField(o, "location").value, "name").Some?)
      && (l.group.Some? ==> Some(l.group.value.id) == StringField(ObjectField(o, "group").value, "id") &&
                            Some(l.group.value.name) == StringField(ObjectField(o, "group").value, "name"))
      && (l.location.Some? ==> Some(l.location.value.id) == StringField(ObjectField(o, "location").value, "id") &&
                               Some(l.location.value.name) == StringField(ObjectField(o, "location").value, "name"))
  {
  }

  /** All-or-nothing: one failing element voids the whole list. */
  function DecodeLights(os: seq<Object>, now: Time): (r: Option<seq<Light>>)
    ensures r.Some? ==> |r.value| == |os|
  {
    if os == [] then Some([])
    else
      match DecodeLight(os[0], now)
      case None => None
      case Some(l) =>
        match DecodeLights(os[1..], now)
        case None => None
        case Some(ls) => Some([l] + ls)
  }

  /** The decoded list is one light per element, in order, and nothing else. */
  lemma {:induction false} DecodeLightsPointwise(os: seq<Object>, now: Time, ls: seq<Light>)
    ensures DecodeLights(os, now) == Some(ls) <==>
            |ls| == |os| && forall i :: 0 <= i < |os| ==> DecodeLight(os[i], now) == Some(ls[i])
  {
    if os != [] && |ls| == |os| {
      var rest := ls[1..];
      DecodeLightsPointwise(os[1..], now, rest);
      assert ls == [ls[0]] + rest;
      assert DecodeLights(os, now) == Some(ls) <==>
             DecodeLight(os[0], now) == Some(ls[0]) && DecodeLights(os[1..], now) == Some(rest);
      assert forall i :: 1 <= i < |os| ==> os[1..][i - 1] == os[i] && rest[i - 1] == ls[i];
    }
  }

  /** Decoding fails exactly when some element fails. */
  lemma {:induction false} DecodeLightsAllOrNothing(os: seq<Object>, now: Time)
    ensures DecodeLights(os, now).None? <==> exists i :: 0 <= i < |os| && DecodeLight(os[i], now).None?
  {
    if os != [] {
      DecodeLightsAllOrNothing(os[1..], now);
      if DecodeLight(os[0], now).Some? {
        assert forall i :: 1 <= i < |os| ==> os[1..][i - 1] == os[i];
        if exists i :: 0 <= i < |os| && DecodeLight(os[i], now).None? {
          var i :| 0 <= i < |os| && DecodeLight(os[i], now).None?;
          assert os[1..][i - 1] == os[i];
        }
      }
    }
  }

  /** The whole of `dataToLights` over an already parsed body. */
  function LightsFromBody(body: Body<NSError>, now: Time): (seq<Light>, Option<NSError>)
  {
    match body
    case NoData => ([], Some(NoDataError))
    case Unparseable(e) => ([], Some(e))
    case Parsed(root) =>
      match DecodeLights(AsObjectArray(root).GetOr([]), now)
      case None => ([], Some(MissingPropertiesError))
      case Some(lights) => (lights, None)
  }

  /** The loop of `dataToLights`, returning early at the first element that fails. */
  method DataToLights(body: Body<NSError>, now: Time) returns (lights: seq<Light>, error: Option<NSError>)
    ensures (lights, error) == LightsFromBody(body, now)
  {
    if body.NoData? {
      return [], Some(NoDataError);
    }
    if body.Unparseable? {
      return [], Some(body.error);
    }
    var objects := AsObjectArray(body.root).GetOr([]);
    lights := [];
    var i := 0;
    while i < |objects|
      invariant 0 <= i <= |objects|
      invariant |lights| == i
      invariant forall k :: 0 <= k < i ==> DecodeLight(objects[k], now) == Some(lights[k])
    {
      var light := DecodeLight(objects[i], now);
      if light.None? {
        DecodeLightsAllOrNothing(objects, now);
        return [], Some(MissingPropertiesError);
      }
      lights := lights + [light.value];
      i := i + 1;
    }
    DecodeLightsPointwise(objects, now, lights);
    error := None;
  }

  /** The outcomes of `dataToLights`, case by case. */
  lemma LightsFromBodyOutcomes(body: Body<NSError>, now: Time)
    ensures body.NoData? ==> LightsFromBody(body, now) == ([], Some(NoDataError))
    ensures body.Unparseable? ==> LightsFromBody(body, now) == ([], Some(body.error))
    ensures body.Parsed? && AsObjectArray(body.root).None? ==> LightsFromBody(body, now) == ([], None)
    ensures body.Parsed? && AsObjectArray(body.root).Some? ==>
      var os := AsObjectArray(body.root).value;
      var (lights, error) := LightsFromBody(body, now);
      && (error.Some? <==> exists i :: 0 <= i < |os| && DecodeLight(os[i], now).None?)
      && (error.Some? ==> lights == [] && error == Some(MissingPropertiesError))
      && (error.None? ==> |lights| == |os| &&
                          forall i :: 0 <= i < |os| ==> DecodeLight(os[i], now) == Some(lights[i]))
  {
    if body.Parsed? {
      assert DecodeLights([], now) == Some([]);
      if AsObjectArray(body.root).Some? {
        var os := AsObjectArray(body.root).value;
        DecodeLightsAllOrNothing(os, now);
        if DecodeLights(os, now).Some? {
          DecodeLightsPointwise(os, now, DecodeLights(os, now).value);
        }
      }
    }
  }

  /** The wire form of a light, as the service sends it. */
  function EncodeLight(l: Light): Object
  {
    var fields := map[
      "id" := JString(l.id),
      "power" := JString(if l.power then "on" else "off"),
      "brightness" := JNumber(l.brightness),
      "color" := JObject(map["hue" := JNumber(l.color.hue),
                             "saturation" := JNumber(l.color.saturation),
                             "kelvin" := JNumber(l.color.kelvin as real)]),
      "label" := JString(l.lightLabel),
      "connected" := JBool(l.connected)];
    var withGroup := if l.group.Some?
      then fields["group" := JObject(map["id" := JString(l.group.value.id), "name" := JString(l.group.value.name)])]
      else fields;
    if l.location.Some?
    then withGroup["location" := JObject(map["id" := JString(l.location.value.id),
                                             "name" := JString(l.location.value.name)])]
    else withGroup
  }

  /** Decoding the wire form gives the light back, touched at the time of decoding. */
  lemma DecodeEncodeLight(l: Light, now: Time)
    ensures DecodeLight(EncodeLight(l), now) == Some(l.(touchedAt := Some(now)))
  {
    var o := EncodeLight(l);
    assert Truncate(l.color.kelvin as real) == l.color.kelvin;
    assert ObjectField(o, "color").Some?;
    assert DecodeColor(ObjectField(o, "color").value) == Some(l.color);
  }
}
