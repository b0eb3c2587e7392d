/** Locations: an id and a display name, denormalised into each light. */
module Locations {
  import opened Wrappers
  import opened Selectors

  datatype Location = Location(id: string, name: string)

  /** `toSelector()`: address the location by its id. */
  function ToSelector(l: Location): (s: Selector)
    ensures s.kind == LocationID && s.value == l.id
  {
    Selector(LocationID, l.id)
  }

  /** `==`: id and name both agree. */
  predicate LocationEq(a: Location, b: Location)
  {
    a.id == b.id && a.name == b.name
  }

  /** Renaming a location makes it unequal, but it is still addressed by the same selector. */
  lemma RenamedLocationSameSelector(a: Location, b: Location)
    requires a.id == b.id && a.name != b.name
    ensures !LocationEq(a, b)
    ensures SelectorEq(ToSelector(a), ToSelector(b))
  {
  }

  /** The wire form is `location_id:<id>`, and a non-empty id without `:` parses back to the same selector. */
  lemma ToSelectorRoundTrip(l: Location)
    ensures StringValue(ToSelector(l)) == "location_id:" + l.id
    ensures |l.id| > 0 && ':' !in l.id ==> Parse(StringValue(ToSelector(l))) == Some(ToSelector(l))
  {
    if |l.id| > 0 && ':' !in l.id {
      ParseStringValue(ToSelector(l));
    }
  }
}
