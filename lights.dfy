/** Lights: immutable records of one device's last known state. */
module Lights {
  import opened Wrappers
  import opened Selectors
  import opened Colors
  import Groups
  import Locations

  /** A point in time; the clock itself is outside the model. */
  type Time = int

  /** `lightLabel` is the record's `label`, a reserved word in Dafny. */
  datatype Light = Light(
    id: string,
    power: bool,
    brightness: real,
    color: Color,
    lightLabel: string,
    connected: bool,
    group: Option<Groups.Group>,
    location: Option<Locations.Location>,
    touchedAt: Option<Time>)

  /** `toSelector()`: address the light by its id. */
  function ToSelector(l: Light): (s: Selector)
    ensures s.kind == ID && s.value == l.id
  {
    Selector(ID, l.id)
  }

  predicate OptionalGroupEq(a: Option<Groups.Group>, b: Option<Groups.Group>)
  {
    match (a, b)
    case (None, None) => true
    case (Some(x), Some(y)) => Groups.GroupEq(x, y)
    case _ => false
  }

  predicate OptionalLocationEq(a: Option<Locations.Location>, b: Option<Locations.Location>)
  {
    match (a, b)
    case (None, None) => true
    case (Some(x), Some(y)) => Locations.LocationEq(x, y)
    case _ => false
  }

  /** `==` on lights: every field except `touchedAt`. */
  predicate LightEq(a: Light, b: Light)
  {
    && a.id == b.id
    && a.power == b.power
    && a.brightness == b.brightness
    && ColorEq(a.color, b.color)
    && a.lightLabel == b.lightLabel
    && a.connected == b.connected
    && OptionalGroupEq(a.group, b.group)
    && OptionalLocationEq(a.location, b.location)
  }

  /** `==` on arrays of lights: same length, element-wise LightEq, order-sensitive. */
  predicate LightsEq(a: seq<Light>, b: seq<Light>)
  {
    |a| == |b| && forall i :: 0 <= i < |a| ==> LightEq(a[i], b[i])
  }

  /** Light equality is structural equality once the timestamps are forgotten. */
  lemma LightEqIgnoresTouchedAt(a: Light, b: Light)
    ensures LightEq(a, b) <==> a.(touchedAt := None) == b.(touchedAt := None)
  {
    ColorEqIsEquality(a.color, b.color);
  }

  lemma LightsEqIsEquivalence(a: seq<Light>, b: seq<Light>, c: seq<Light>)
    ensures LightsEq(a, a)
    ensures LightsEq(a, b) ==> LightsEq(b, a)
    ensures LightsEq(a, b) && LightsEq(b, c) ==> LightsEq(a, c)
  {
    forall i | 0 <= i < |a| ensures LightEq(a[i], a[i]) {
      LightEqIgnoresTouchedAt(a[i], a[i]);
    }
    if LightsEq(a, b) {
      forall i | 0 <= i < |a| ensures LightEq(b[i], a[i]) {
        LightEqIgnoresTouchedAt(a[i], b[i]);
        LightEqIgnoresTouchedAt(b[i], a[i]);
      }
      if LightsEq(b, c) {
        forall i | 0 <= i < |a| ensures LightEq(a[i], c[i]) {
          LightEqIgnoresTouchedAt(a[i], b[i]);
          LightEqIgnoresTouchedAt(b[i], c[i]);
          LightEqIgnoresTouchedAt(a[i], c[i]);
        }
      }
    }
  }

  /** Lists equal under LightsEq carry the same ids in the same order. */
  lemma LightsEqSameIds(a: seq<Light>, b: seq<Light>, i: int)
    requires LightsEq(a, b) && 0 <= i < |a|
    ensures a[i].id == b[i].id
  {
  }

  /**
   * `lightWithProperties`: a copy in which each given argument replaces its
   * field. The id, label, group and location are always kept, and the copy
   * is touched at the given time or else at `now`.
   */
  function WithProperties(l: Light, power: Option<bool>, brightness: Option<real>, color: Option<Color>,
                          connected: Option<bool>, touchedAt: Option<Time>, now: Time): (r: Light)
    ensures r.id == l.id && r.lightLabel == l.lightLabel && r.group == l.group && r.location == l.location
    ensures r.power == (if power.Some? then power.value else l.power)
    ensures r.brightness == (if brightness.Some? then brightness.value else l.brightness)
    ensures r.color == (if color.Some? then color.value else l.color)
    ensures r.connected == (if connected.Some? then connected.value else l.connected)
    ensures r.touchedAt == Some(if touchedAt.Some? then touchedAt.value else now)
  {
    Light(l.id, power.GetOr(l.power), brightness.GetOr(l.brightness), color.GetOr(l.color), l.lightLabel,
          connected.GetOr(l.connected), l.group, l.location, Some(touchedAt.GetOr(now)))
  }

  /** The copy is `==` to the original exactly when every given argument repeats the old field. */
  lemma WithPropertiesEq(l: Light, power: Option<bool>, brightness: Option<real>, color: Option<Color>,
                         connected: Option<bool>, touchedAt: Option<Time>, now: Time)
    ensures LightEq(WithProperties(l, power, brightness, color, connected, touchedAt, now), l) <==>
            && (power.Some? ==> power.value == l.power)
            && (brightness.Some? ==> brightness.value == l.brightness)
            && (color.Some? ==> color.value == l.color)
            && (connected.Some? ==> connected.value == l.connected)
  {
    var r := WithProperties(l, power, brightness, color, connected, touchedAt, now);
    LightEqIgnoresTouchedAt(r, l);
  }

  /** With every argument nil, only the timestamp moves, so the copy is `==` to the original. */
  lemma WithNoPropertiesEq(l: Light, now: Time)
    ensures LightEq(WithProperties(l, None, None, None, None, None, now), l)
    ensures WithProperties(l, None, None, None, None, None, now) == l.(touchedAt := Some(now))
  {
    WithPropertiesEq(l, None, None, None, None, None, now);
  }
}
