/**
  A validated property (`validated_property(name, choices, initial)` in
  colosseum.declaration): a named slot of a style declaration with a domain
  and a default. Reading falls back to the default when nothing is stored;
  assigning validates the value and marks the layout dirty only when the
  effective value changes; deleting restores the default and marks the layout
  dirty only when a value was actually stored.

  The functions here describe one step on a `Store`, the abstract state of a
  declaration: the values stored so far (keyed by attribute name) and the
  layout's dirty flag. The `CSS` class in module Css applies them in place.
*/
module Declaration {
  import opened Wrappers
  import opened Values
  import opened Domain

  /**
    The layout's dirty flag as the tests observe it: never assigned (`None`),
    cleaned (`False`), or dirty (`True`).
  */
  datatype DirtyFlag = Unset | Clean | Dirty

  datatype Property = Property(name: string, choices: Choices, default: Value)

  datatype Store = Store(values: map<string, Value>, dirty: DirtyFlag)

  /**
    The failures a declaration reports. The first two are `ValueError`s (a
    value outside the domain, a shorthand tuple of the wrong length); the last
    is the `NameError` of a bulk assignment naming no property.
  */
  datatype Error =
    | InvalidValue(message: string)
    | InvalidArity(property: string, count: nat)
    | UnknownProperty(name: string)

  predicate IsValueError(e: Error)
  {
    e.InvalidValue? || e.InvalidArity?
  }

  /** The state after an operation, and the error it raised, if any. */
  datatype Outcome = Outcome(after: Store, raised: Option<Error>)

  /**
    The property's getter: the stored value, or the default when none is
    stored. When the default lies in the domain and so does whatever is stored,
    the getter only ever returns a value of the domain.
  */
  function Read(values: map<string, Value>, p: Property): (r: Value)
    ensures r == p.default || StoredAs(values, p, r)
    ensures Holds(values, p) && Accepts(p.choices, p.default) ==> Accepts(p.choices, r)
  {
    if p.name in values then values[p.name] else p.default
  }

  /** The name of `p` already stores `v`. */
  predicate StoredAs(values: map<string, Value>, p: Property, v: Value)
  {
    p.name in values && values[p.name] == v
  }

  /**
    The property's setter. A value outside the domain raises the exact
    `ValueError` message and changes nothing. A value equal to the one already
    stored under the property's name changes nothing either. Any other value,
    the default included when nothing is stored, is stored and marks the
    layout dirty.
  */
  function Assign(s: Store, p: Property, v: Value): (r: Outcome)
    ensures r.raised.None? <==> Accepts(p.choices, v)
    ensures r.raised.Some? ==>
      r.after == s && r.raised.value == InvalidValue(InvalidValueMessage(p.name, QuotedText(v), p.choices))
    ensures r.raised.None? ==> r.after.values == s.values[p.name := v] && Read(r.after.values, p) == v
    ensures r.raised.None? ==> r.after.dirty == (if StoredAs(s.values, p, v) then s.dirty else Dirty)
    ensures r.after.values - {p.name} == s.values - {p.name}
  {
    if !Accepts(p.choices, v) then
      Outcome(s, Some(InvalidValue(InvalidValueMessage(p.name, QuotedText(v), p.choices))))
    else if StoredAs(s.values, p, v) then
      Outcome(s, None)
    else
      Outcome(Store(s.values[p.name := v], Dirty), None)
  }

  /**
    The property's deleter: afterwards the getter returns the default, and the
    layout is marked dirty exactly when a value had been stored.
  */
  function Remove(s: Store, p: Property): (r: Store)
    ensures p.name !in r.values && Read(r.values, p) == p.default
    ensures r.values - {p.name} == s.values - {p.name}
    ensures r.dirty == (if p.name in s.values then Dirty else s.dirty)
  {
    if p.name in s.values then Store(s.values - {p.name}, Dirty) else s
  }

  /** Every stored value of `p` lies in its domain. */
  predicate Holds(values: map<string, Value>, p: Property)
  {
    p.name in values ==> Accepts(p.choices, values[p.name])
  }

  // Properties of one property's getter, setter and deleter.

  /** Assigning the value already stored changes nothing, dirty flag included. */
  lemma AssignStoredIsNoOp(s: Store, p: Property)
    requires p.name in s.values && Accepts(p.choices, s.values[p.name])
    ensures Assign(s, p, s.values[p.name]) == Outcome(s, None)
  {
  }

  /**
    Assigning the default to a property that stores nothing is a change: the
    default is then stored and the layout marked dirty, although the getter
    returns the same value before and after.
  */
  lemma AssignDefaultToUnset(s: Store, p: Property)
    requires p.name !in s.values && Accepts(p.choices, p.default)
    ensures Read(s.values, p) == p.default
    ensures Assign(s, p, p.default) == Outcome(Store(s.values[p.name := p.default], Dirty), None)
  {
  }

  /** Assigning the same value twice: the second assignment changes nothing, dirty flag included. */
  lemma AssignIdempotent(s: Store, p: Property, v: Value)
    ensures var once := Assign(s, p, v);
      Assign(once.after, p, v) == Outcome(once.after, once.raised)
  {
  }

  /** The last assignment wins: two accepted assignments leave the second value. */
  lemma AssignOverwrites(s: Store, p: Property, v: Value, w: Value)
    requires Accepts(p.choices, v) && Accepts(p.choices, w)
    ensures Read(Assign(Assign(s, p, v).after, p, w).after.values, p) == w
    ensures Assign(Assign(s, p, v).after, p, w).after.values - {p.name} == s.values - {p.name}
  {
  }

  /** Assigning then deleting restores the default and leaves every other property as it was. */
  lemma AssignThenRemove(s: Store, p: Property, v: Value)
    ensures var t := Remove(Assign(s, p, v).after, p);
      Read(t.values, p) == p.default && t.values == s.values - {p.name}
  {
    var t := Remove(Assign(s, p, v).after, p);
    assert t.values.Keys == (s.values - {p.name}).Keys;
  }

  /** An accepted assignment followed by a delete always leaves the layout dirty. */
  lemma AssignThenRemoveIsDirty(s: Store, p: Property, v: Value)
    requires Accepts(p.choices, v)
    ensures Remove(Assign(s, p, v).after, p).dirty == Dirty
  {
  }

  /** Deleting twice is deleting once; the second delete does not touch the dirty flag. */
  lemma RemoveIdempotent(s: Store, p: Property)
    ensures Remove(Remove(s, p), p) == Remove(s, p)
  {
  }

  /**
    Assignments and deletes keep every stored value inside its property's
    domain, provided no two properties share a name.
  */
  lemma AssignKeepsDomain(s: Store, p: Property, q: Property, v: Value)
    requires Holds(s.values, q)
    requires p.name == q.name ==> p == q
    ensures Holds(Assign(s, p, v).after.values, q)
    ensures Holds(Remove(s, q).values, q) && Holds(Remove(s, p).values, q)
  {
  }
}
