/**
 * Light target selectors: a type and a value, written on the wire as
 * `type:value` (or just `all`), with their own notion of equality.
 */
module Selectors {
  import opened Wrappers

  datatype SelectorType = All | ID | GroupID | LocationID | SceneID | Label

  /** The wire name of each selector type. */
  function RawValue(t: SelectorType): (s: string)
    ensures |s| > 0 && ':' !in s
  {
    match t
    case All => "all"
    case ID => "id"
    case GroupID => "group_id"
    case LocationID => "location_id"
    case SceneID => "scene_id"
    case Label => "label"
  }

  /** The failable `init(rawValue:)` of the selector type enum. */
  function TypeFromRawValue(s: string): (r: Option<SelectorType>)
    ensures r.Some? ==> RawValue(r.value) == s
  {
    if s == "all" then Some(All)
    else if s == "id" then Some(ID)
    else if s == "group_id" then Some(GroupID)
    else if s == "location_id" then Some(LocationID)
    else if s == "scene_id" then Some(SceneID)
    else if s == "label" then Some(Label)
    else None
  }

  /** The six raw values are the only strings that name a type, and each names its own. */
  lemma TypeFromRawValueInverse(t: SelectorType, s: string)
    ensures TypeFromRawValue(RawValue(t)) == Some(t)
    ensures TypeFromRawValue(s).Some? <==>
            s in ["all", "id", "group_id", "location_id", "scene_id", "label"]
  {
  }

  datatype Selector = Selector(kind: SelectorType, value: string)

  /** The shape of every selector that parsing can produce. */
  predicate Canonical(s: Selector)
  {
    if s.kind == All then s.value == "" else |s.value| > 0 && ':' !in s.value
  }

  /** `componentsSeparatedByString(":")`: never empty, and no component holds a `:`. */
  function Components(s: string): (r: seq<string>)
    ensures |r| >= 1
    ensures forall i :: 0 <= i < |r| ==> ':' !in r[i]
  {
    if s == [] then [""]
    else
      var rest := Components(s[1..]);
      if s[0] == ':' then [""] + rest else [[s[0]] + rest[0]] + rest[1..]
  }

  /** Glues components back together with `:` between them. */
  function JoinComponents(cs: seq<string>): string
    requires |cs| >= 1
  {
    if |cs| == 1 then cs[0] else cs[0] + ":" + JoinComponents(cs[1..])
  }

  lemma {:induction false} JoinComponentsOfComponents(s: string)
    ensures JoinComponents(Components(s)) == s
  {
    if s != [] {
      JoinComponentsOfComponents(s[1..]);
      var rest := Components(s[1..]);
      if s[0] == ':' {
        assert ([""] + rest)[1..] == rest;
      } else {
        var r := [[s[0]] + rest[0]] + rest[1..];
        if |rest| > 1 {
          assert r[1..] == rest[1..];
        }
      }
    }
  }

  lemma {:induction false} ComponentsNoColon(s: string)
    requires ':' !in s
    ensures Components(s) == [s]
  {
    if s != [] {
      ComponentsNoColon(s[1..]);
      assert [s[0]] + s[1..] == s;
    }
  }

  /** Splitting distributes over a `:` joint. */
  lemma {:induction false} ComponentsAtColon(a: string, b: string)
    ensures Components(a + ":" + b) == Components(a) + Components(b)
  {
    if a == [] {
      assert a + ":" + b == [':'] + b;
      assert ([':'] + b)[1..] == b;
    } else {
      var s := a + ":" + b;
      assert s[0] == a[0];
      assert s[1..] == a[1..] + ":" + b;
      ComponentsAtColon(a[1..], b);
    }
  }

  /** `init?(stringValue:)`: the type comes from the first component, the value from the last. */
  function Parse(s: string): (r: Option<Selector>)
    ensures r.Some? ==> Canonical(r.value)
  {
    var components := Components(s);
    match TypeFromRawValue(components[0])
    case None => None
    case Some(t) =>
      if t == All then Some(Selector(All, ""))
      else
        var last := components[|components| - 1];
        if |last| > 0 then Some(Selector(t, last)) else None
  }

  /** `stringValue`: just the raw value for All, `type:value` otherwise. */
  function StringValue(s: Selector): (r: string)
    ensures s.kind == All ==> r == "all"
    ensures s.kind != All ==> |r| > |RawValue(s.kind)| && r[|RawValue(s.kind)|] == ':'
    ensures s.kind != All ==> r[|RawValue(s.kind)| + 1..] == s.value
    ensures r[..|RawValue(s.kind)|] == RawValue(s.kind)
  {
    if s.kind == All then RawValue(All) else RawValue(s.kind) + ":" + s.value
  }

  /** `toQueryStringValue` is the string value unchanged. */
  function ToQueryStringValue(s: Selector): (r: string)
    ensures r == StringValue(s)
  {
    StringValue(s)
  }

  /** The custom `==`: all All selectors are equal, others compare type and value. */
  predicate SelectorEq(a: Selector, b: Selector)
  {
    if a.kind == All then b.kind == All else a.kind == b.kind && a.value == b.value
  }

  lemma SelectorEqIsEquivalence(a: Selector, b: Selector, c: Selector)
    ensures SelectorEq(a, a)
    ensures SelectorEq(a, b) ==> SelectorEq(b, a)
    ensures SelectorEq(a, b) && SelectorEq(b, c) ==> SelectorEq(a, c)
  {
  }

  /** Two All selectors are equal whatever their values; a non-All one needs both fields equal. */
  lemma SelectorEqCases(a: Selector, b: Selector)
    ensures a.kind == All && b.kind == All ==> SelectorEq(a, b)
    ensures a.kind != All ==> (SelectorEq(a, b) <==> a == b)
  {
  }

  /** On canonical selectors the custom equality is plain equality. */
  lemma CanonicalSelectorEq(a: Selector, b: Selector)
    requires Canonical(a) && Canonical(b)
    ensures SelectorEq(a, b) <==> a == b
  {
  }

  lemma ComponentsWithPrefix(t: string, rest: string)
    requires ':' !in t
    requires rest == [] || rest[0] == ':'
    ensures Components(t + rest)[0] == t
  {
    if rest == [] {
      assert t + rest == t;
      ComponentsNoColon(t);
    } else {
      assert t + rest == t + ":" + rest[1..];
      ComponentsAtColon(t, rest[1..]);
      ComponentsNoColon(t);
    }
  }

  /** Text before the first `:` that is not one of the six raw values never parses. */
  lemma ParseUnknownType(t: string, rest: string)
    requires ':' !in t
    requires rest == [] || rest[0] == ':'
    requires TypeFromRawValue(t).None?
    ensures Parse(t + rest) == None
  {
    ComponentsWithPrefix(t, rest);
  }

  /** `all` followed by anything from a `:` on parses to the All selector with an empty value. */
  lemma ParseAllPrefix(rest: string)
    requires rest == [] || rest[0] == ':'
    ensures Parse("all" + rest) == Some(Selector(All, ""))
  {
    ComponentsWithPrefix("all", rest);
  }

  /** `type:value` with no further `:` gives that value, and nil for an empty value. */
  lemma ParseTypeAndValue(t: SelectorType, v: string)
    requires t != All
    requires ':' !in v
    ensures Parse(RawValue(t) + ":" + v) == if |v| > 0 then Some(Selector(t, v)) else None
  {
    ComponentsAtColon(RawValue(t), v);
    ComponentsNoColon(RawValue(t));
    ComponentsNoColon(v);
  }

  /** With more than one `:`, the value is the last component (`id:a:b` has value `b`). */
  lemma ParseTakesLastComponent(t: SelectorType, middle: string, v: string)
    requires t != All
    requires ':' !in v
    ensures Parse(RawValue(t) + ":" + middle + ":" + v)
         == if |v| > 0 then Some(Selector(t, v)) else None
  {
    var inner := middle + ":" + v;
    assert RawValue(t) + ":" + middle + ":" + v == RawValue(t) + ":" + inner;
    ComponentsAtColon(RawValue(t), inner);
    ComponentsAtColon(middle, v);
    ComponentsNoColon(RawValue(t));
    ComponentsNoColon(v);
    var cs := Components(RawValue(t) + ":" + inner);
    assert cs == [RawValue(t)] + (Components(middle) + [v]);
    assert cs[0] == RawValue(t) && cs[|cs| - 1] == v;
  }

  /** A bare type name parses to that type with the type name as its value. */
  lemma ParseBareTypeName(t: SelectorType)
    requires t != All
    ensures Parse(RawValue(t)) == Some(Selector(t, RawValue(t)))
  {
    ComponentsNoColon(RawValue(t));
  }

  /** Round trip: a canonical selector is recovered exactly from its string value. */
  lemma ParseStringValue(s: Selector)
    requires Canonical(s)
    ensures Parse(StringValue(s)) == Some(s)
  {
    if s.kind == All {
      ParseAllPrefix("");
      assert "all" + "" == "all";
    } else {
      ParseTypeAndValue(s.kind, s.value);
    }
  }

  /** Round trip up to the custom equality: any All selector, or a non-empty value without `:`. */
  lemma ParseStringValueEq(s: Selector)
    requires s.kind == All || (|s.value| > 0 && ':' !in s.value)
    ensures Parse(StringValue(s)).Some? && SelectorEq(Parse(StringValue(s)).value, s)
  {
    if s.kind == All {
      ParseStringValue(Selector(All, ""));
    } else {
      ParseStringValue(s);
    }
  }
}
