/** Groups: an id and a display name, denormalised into each light. */
module Groups {
  import opened Wrappers
  import opened Selectors

  datatype Group = Group(id: string, name: string)

  /** `toSelector()`: address the group by its id. */
  function ToSelector(g: Group): (s: Selector)
    ensures s.kind == GroupID && s.value == g.id
  {
    Selector(GroupID, g.id)
  }

  /** `==`: id and name both agree. */
  predicate GroupEq(a: Group, b: Group)
  {
    a.id == b.id && a.name == b.name
  }

  /** Renaming a group makes it unequal, but it is still addressed by the same selector. */
  lemma RenamedGroupSameSelector(a: Group, b: Group)
    requires a.id == b.id && a.name != b.name
    ensures !GroupEq(a, b)
    ensures SelectorEq(ToSelector(a), ToSelector(b))
  {
  }

  /** The wire form is `group_id:<id>`, and a non-empty id without `:` parses back to the same selector. */
  lemma ToSelectorRoundTrip(g: Group)
    ensures StringValue(ToSelector(g)) == "group_id:" + g.id
    ensures |g.id| > 0 && ':' !in g.id ==> Parse(StringValue(ToSelector(g))) == Some(ToSelector(g))
  {
    if |g.id| > 0 && ':' !in g.id {
      ParseStringValue(ToSelector(g));
    }
  }
}
