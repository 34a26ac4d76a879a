/**
  The style declaration (`CSS` in colosseum.declaration): the registry of the
  properties it knows, attribute access by name, bulk assignment with
  `set(**styles)`, and the canonical text `str()` gives.

  The functions here are the specification on `Store` values; the `CSS`
  class at the end holds the state and applies them in place.
*/
module Css {
  import opened Wrappers
  import opened Strings
  import opened Values
  import opened Domain
  import opened Declaration
  import opened Directional

  // The registry. The domains and defaults follow CSS 2.1.

  /** `width`, `height` and `top`: a length, a percentage, or AUTO. */
  const SIZE: Choices := Choices([AUTO], false, true, true)

  const WIDTH: Property := Property("width", SIZE, AUTO)
  const HEIGHT: Property := Property("height", SIZE, AUTO)
  const MIN_WIDTH: Property := Property("min_width", Choices([], false, true, true), Int(0))
  const MAX_WIDTH: Property := Property("max_width", Choices([NoneV], false, true, true), NoneV)
  const TOP: Property := Property("top", SIZE, AUTO)
  const DISPLAY: Property := Property("display", Choices(
    [INLINE, BLOCK, LIST_ITEM, INLINE_BLOCK, TABLE, INLINE_TABLE, TABLE_ROW_GROUP,
     TABLE_HEADER_GROUP, TABLE_FOOTER_GROUP, TABLE_ROW, TABLE_COLUMN_GROUP,
     TABLE_COLUMN, TABLE_CELL, TABLE_CAPTION, NONE], false, false, false), INLINE)

  /** A margin edge: a length, a percentage, or AUTO, defaulting to 0. */
  const MARGIN_EDGE: Choices := Choices([AUTO], false, true, true)

  const MARGIN_TOP: Property := Property("margin_top", MARGIN_EDGE, Int(0))
  const MARGIN_RIGHT: Property := Property("margin_right", MARGIN_EDGE, Int(0))
  const MARGIN_BOTTOM: Property := Property("margin_bottom", MARGIN_EDGE, Int(0))
  const MARGIN_LEFT: Property := Property("margin_left", MARGIN_EDGE, Int(0))

  const MARGIN: Family := Family("margin", MARGIN_TOP, MARGIN_RIGHT, MARGIN_BOTTOM, MARGIN_LEFT)

  /** Every validated property of a declaration; the shorthand is not one of them. */
  const PLAINS: seq<Property> :=
    [WIDTH, HEIGHT, MIN_WIDTH, MAX_WIDTH, TOP, DISPLAY,
     MARGIN_TOP, MARGIN_RIGHT, MARGIN_BOTTOM, MARGIN_LEFT]

  /** The registered property of each attribute name. */
  function PlainNamed(name: string): (r: Option<Property>)
    ensures r.Some? ==> r.value.name == name
  {
    match name
    case "width" => Some(WIDTH)
    case "height" => Some(HEIGHT)
    case "min_width" => Some(MIN_WIDTH)
    case "max_width" => Some(MAX_WIDTH)
    case "top" => Some(TOP)
    case "display" => Some(DISPLAY)
    case "margin_top" => Some(MARGIN_TOP)
    case "margin_right" => Some(MARGIN_RIGHT)
    case "margin_bottom" => Some(MARGIN_BOTTOM)
    case "margin_left" => Some(MARGIN_LEFT)
    case _ => None
  }

  /**
    The registry is consistent: every property of `PLAINS` is found under its
    own name (so no two of them share a name), and every name found belongs to
    a property of `PLAINS`.
  */
  lemma {:induction false} Registered(p: Property)
    requires p in PLAINS
    ensures PlainNamed(p.name) == Some(p)
  {
    var i :| 0 <= i < |PLAINS| && PLAINS[i] == p;
    if i < 5 {
      RegisteredLow(i);
    } else {
      RegisteredHigh(i);
    }
  }

  lemma RegisteredLow(i: nat)
    requires i < 5
    ensures PlainNamed(PLAINS[i].name) == Some(PLAINS[i])
  {
    if i == 0 { assert PlainNamed("width") == Some(WIDTH); }
    else if i == 1 { assert PlainNamed("height") == Some(HEIGHT); }
    else if i == 2 { assert PlainNamed("min_width") == Some(MIN_WIDTH); }
    else if i == 3 { assert PlainNamed("max_width") == Some(MAX_WIDTH); }
    else { assert PlainNamed("top") == Some(TOP); }
  }

  lemma RegisteredHigh(i: nat)
    requires 5 <= i < 10
    ensures PlainNamed(PLAINS[i].name) == Some(PLAINS[i])
  {
    if i == 5 { assert PlainNamed("display") == Some(DISPLAY); }
    else if i == 6 { assert PlainNamed("margin_top") == Some(MARGIN_TOP); }
    else if i == 7 { assert PlainNamed("margin_right") == Some(MARGIN_RIGHT); }
    else if i == 8 { assert PlainNamed("margin_bottom") == Some(MARGIN_BOTTOM); }
    else { assert PlainNamed("margin_left") == Some(MARGIN_LEFT); }
  }

  /** No registered name contains a dash. */
  lemma {:induction false} Undashed(p: Property)
    requires p in PLAINS
    ensures '-' !in p.name
  {
    var i :| 0 <= i < |PLAINS| && PLAINS[i] == p;
    if i < 5 {
      UndashedLow(i);
    } else {
      UndashedHigh(i);
    }
  }

  lemma UndashedLow(i: nat)
    requires i < 5
    ensures '-' !in PLAINS[i].name
  {
    if i == 0 { assert PLAINS[i].name == "width"; }
    else if i == 1 { assert PLAINS[i].name == "height"; }
    else if i == 2 { assert PLAINS[i].name == "min_width"; }
    else if i == 3 { assert PLAINS[i].name == "max_width"; }
    else { assert PLAINS[i].name == "top"; }
  }

  lemma UndashedHigh(i: nat)
    requires 5 <= i < 10
    ensures '-' !in PLAINS[i].name
  {
    if i == 5 { assert PLAINS[i].name == "display"; }
    else if i == 6 { assert PLAINS[i].name == "margin_top"; }
    else if i == 7 { assert PLAINS[i].name == "margin_right"; }
    else if i == 8 { assert PLAINS[i].name == "margin_bottom"; }
    else { assert PLAINS[i].name == "margin_left"; }
  }

  /** What an attribute name refers to. */
  datatype Entry = Plain(p: Property) | Shorthand(f: Family)

  /** The attribute lookup: `margin` is the shorthand, the registered names are properties, nothing else is. */
  function Lookup(name: string): (r: Option<Entry>)
    ensures r.Some? <==> name == MARGIN.name || PlainNamed(name).Some?
    ensures r.Some? && r.value.Plain? ==> PlainNamed(name) == Some(r.value.p)
    ensures r.Some? && r.value.Shorthand? ==> r.value.f == MARGIN && name == MARGIN.name
  {
    if name == MARGIN.name then Some(Shorthand(MARGIN))
    else match PlainNamed(name)
      case Some(p) => Some(Plain(p))
      case None => None
  }

  predicate Known(name: string)
  {
    Lookup(name).Some?
  }

  lemma MarginIsValid()
    ensures ValidFamily(MARGIN)
    ensures forall e :: e in Edges(MARGIN) ==> PlainNamed(e.name) == Some(e)
    ensures PlainNamed(MARGIN.name).None?
  {
    assert Edges(MARGIN) == [MARGIN_TOP, MARGIN_RIGHT, MARGIN_BOTTOM, MARGIN_LEFT];
    RegisteredHigh(6);
    RegisteredHigh(7);
    RegisteredHigh(8);
    RegisteredHigh(9);
  }

  /**
    The attribute getter: a property's stored value or else its default, and
    for the shorthand the tuple of its four edges' getters. In a valid store
    every property reads as a value of its own domain.
  */
  function GetAttr(values: map<string, Value>, name: string): (r: Option<Arg>)
    ensures r.Some? <==> Known(name)
    ensures PlainNamed(name).Some? ==>
      && r.Some? && r.value.Scalar?
      && var p := PlainNamed(name).value;
         && (r.value.v == p.default || StoredAs(values, p, r.value.v))
         && (ValidStore(values) ==> Accepts(p.choices, r.value.v))
    ensures name == MARGIN.name ==>
      r == Some(Tuple([Read(values, MARGIN_TOP), Read(values, MARGIN_RIGHT), Read(values, MARGIN_BOTTOM), Read(values, MARGIN_LEFT)]))
  {
    match Lookup(name)
    case None => None
    case Some(Plain(p)) =>
      DefaultAccepted(p);
      Some(Scalar(Read(values, p)))
    case Some(Shorthand(f)) => Some(Tuple(SidesTuple(ReadSides(values, f))))
  }

  /** Every registered property's default lies in its own domain. */
  lemma DefaultAccepted(p: Property)
    requires p in PLAINS
    ensures Accepts(p.choices, p.default)
  {
  }

  /**
    The attribute setter. A name that is no attribute raises a `NameError`
    and changes nothing. A tuple is never a property's value, so assigning one
    to a property raises its `ValueError`, quoting the tuple; any refused
    assignment to a property changes nothing. The dirty flag is only ever set.
  */
  function SetAttr(s: Store, name: string, a: Arg): (r: Outcome)
    ensures !Known(name) <==> r.raised.Some? && r.raised.value.UnknownProperty?
    ensures !Known(name) ==> r == Outcome(s, Some(UnknownProperty(name)))
    ensures PlainNamed(name).Some? && a.Tuple? ==> r.raised.Some? && r.raised.value.InvalidValue?
    ensures PlainNamed(name).Some? && r.raised.Some? ==> r.after == s
    ensures r.after.dirty == s.dirty || r.after.dirty == Dirty
  {
    match Lookup(name)
    case None => Outcome(s, Some(UnknownProperty(name)))
    case Some(Plain(p)) =>
      (match a
       case Scalar(v) => Assign(s, p, v)
       case Tuple(_) => Outcome(s, Some(InvalidValue(InvalidValueMessage(p.name, ArgRepr(a), p.choices)))))
    case Some(Shorthand(f)) =>
      MarginIsValid();
      AssignShorthand(s, f, a)
  }

  /**
    The attribute deleter: it fails only on a name that is no attribute, and
    then changes nothing; afterwards a property reads as its default. The
    dirty flag is only ever set.
  */
  function DelAttr(s: Store, name: string): (r: Outcome)
    ensures r.raised.Some? <==> !Known(name)
    ensures r.raised.Some? ==> r == Outcome(s, Some(UnknownProperty(name)))
    ensures PlainNamed(name).Some? ==> GetAttr(r.after.values, name) == Some(Scalar(PlainNamed(name).value.default))
    ensures r.after.dirty == s.dirty || r.after.dirty == Dirty
  {
    match Lookup(name)
    case None => Outcome(s, Some(UnknownProperty(name)))
    case Some(Plain(p)) => Outcome(Remove(s, p), None)
    case Some(Shorthand(f)) =>
      MarginIsValid();
      Outcome(RemoveSides(s, f), None)
  }

  /** One keyword argument of `set`: `None` deletes the attribute, anything else assigns it. */
  function BulkItem(s: Store, name: string, a: Arg): (r: Outcome)
    ensures a == Scalar(NoneV) ==> (r.raised.None? <==> Known(name))
    ensures !Known(name) <==> r.raised.Some? && r.raised.value.UnknownProperty?
    ensures r.after.dirty == s.dirty || r.after.dirty == Dirty
  {
    if a == Scalar(NoneV) then DelAttr(s, name) else SetAttr(s, name, a)
  }

  /**
    The keyword arguments applied in order, stopping at the first that
    raises. When none raises, every name was an attribute.
  */
  function ApplyAll(s: Store, pairs: seq<(string, Arg)>): (r: Outcome)
    ensures r.raised.None? ==> forall i :: 0 <= i < |pairs| ==> Known(pairs[i].0)
    ensures r.after.dirty == s.dirty || r.after.dirty == Dirty
  {
    if pairs == [] then Outcome(s, None)
    else
      var prev := ApplyAll(s, pairs[..|pairs| - 1]);
      assert forall i :: 0 <= i < |pairs| - 1 ==> pairs[..|pairs| - 1][i] == pairs[i];
      if prev.raised.Some? then prev
      else BulkItem(prev.after, pairs[|pairs| - 1].0, pairs[|pairs| - 1].1)
  }

  /** `name`, the name of argument `i`, is the first name that is no attribute. */
  predicate FirstAt(pairs: seq<(string, Arg)>, i: int, name: string)
  {
    && 0 <= i < |pairs| && pairs[i].0 == name && !Known(name)
    && forall j :: 0 <= j < i ==> Known(pairs[j].0)
  }

  lemma ApplyAllStep(s: Store, pairs: seq<(string, Arg)>, i: nat, t: Store)
    requires i < |pairs| && ApplyAll(s, pairs[..i]) == Outcome(t, None)
    ensures ApplyAll(s, pairs[..i + 1]) == BulkItem(t, pairs[i].0, pairs[i].1)
  {
    assert pairs[..i + 1][..i] == pairs[..i];
  }

  /** Once an argument raises, the later ones are not applied. */
  lemma {:induction false} ApplyAllStops(s: Store, pairs: seq<(string, Arg)>, k: nat)
    requires k <= |pairs| && ApplyAll(s, pairs[..k]).raised.Some?
    ensures ApplyAll(s, pairs) == ApplyAll(s, pairs[..k])
    decreases |pairs| - k
  {
    if k < |pairs| {
      assert pairs[..k + 1][..k] == pairs[..k];
      ApplyAllStops(s, pairs, k + 1);
    } else {
      assert pairs[..k] == pairs;
    }
  }

  lemma BulkSetCases(s: Store, pairs: seq<(string, Arg)>)
    ensures FirstUnknown(pairs).Some? ==> BulkSet(s, pairs) == Outcome(s, Some(UnknownProperty(FirstUnknown(pairs).value)))
    ensures FirstUnknown(pairs).None? ==> BulkSet(s, pairs) == ApplyAll(s, pairs)
  {
  }

  /** The first argument name that is no attribute of a declaration. */
  function FirstUnknown(pairs: seq<(string, Arg)>): (r: Option<string>)
    ensures r.None? <==> forall i :: 0 <= i < |pairs| ==> Known(pairs[i].0)
    ensures r.Some? ==> !Known(r.value) && exists i :: FirstAt(pairs, i, r.value)
  {
    if pairs == [] then None
    else if !Known(pairs[0].0) then
      assert FirstAt(pairs, 0, pairs[0].0);
      Some(pairs[0].0)
    else
      var rest := FirstUnknown(pairs[1..]);
      assert forall i :: 1 <= i < |pairs| ==> pairs[1..][i - 1] == pairs[i];
      assert rest.Some? ==> exists i :: FirstAt(pairs, i, rest.value) by {
        if rest.Some? {
          var i :| FirstAt(pairs[1..], i, rest.value);
          assert FirstAt(pairs, i + 1, rest.value);
        }
      }
      rest
  }

  /**
    `set(**styles)`: when some name is no attribute, a `NameError` is raised
    before anything is assigned; otherwise the arguments are applied in order.
  */
  function BulkSet(s: Store, pairs: seq<(string, Arg)>): (r: Outcome)
    ensures (exists i :: 0 <= i < |pairs| && !Known(pairs[i].0)) <==> (r.raised.Some? && r.raised.value.UnknownProperty?)
    ensures r.raised.Some? && r.raised.value.UnknownProperty? ==>
      r.after == s && !Known(r.raised.value.name)
  {
    match FirstUnknown(pairs)
    case Some(name) => Outcome(s, Some(UnknownProperty(name)))
    case None =>
      ApplyAllNoNameError(s, pairs);
      ApplyAll(s, pairs)
  }

  /** Once every name is known, only `ValueError`s can be raised. */
  lemma {:induction false} ApplyAllNoNameError(s: Store, pairs: seq<(string, Arg)>)
    requires forall i :: 0 <= i < |pairs| ==> Known(pairs[i].0)
    ensures var r := ApplyAll(s, pairs); r.raised.Some? ==> IsValueError(r.raised.value)
  {
    if pairs != [] {
      var front := pairs[..|pairs| - 1];
      assert forall i :: 0 <= i < |front| ==> front[i] == pairs[i];
      ApplyAllNoNameError(s, front);
      MarginIsValid();
    }
  }

  // The declaration invariant: only registered properties are stored, each inside its domain.

  predicate ValidStore(values: map<string, Value>)
  {
    forall k :: k in values ==> PlainNamed(k).Some? && Accepts(PlainNamed(k).value.choices, values[k])
  }

  lemma AssignKeepsValid(s: Store, p: Property, v: Value)
    requires PlainNamed(p.name) == Some(p) && ValidStore(s.values)
    ensures ValidStore(Assign(s, p, v).after.values)
  {
    var after := Assign(s, p, v).after.values;
    forall k | k in after
      ensures PlainNamed(k).Some? && Accepts(PlainNamed(k).value.choices, after[k])
    {
      if k != p.name {
        assert k in after - {p.name};
        assert after[k] == (after - {p.name})[k] == (s.values - {p.name})[k] == s.values[k];
      }
    }
  }

  lemma RemoveKeepsValid(s: Store, p: Property)
    requires ValidStore(s.values)
    ensures ValidStore(Remove(s, p).values)
  {
  }

  lemma SidesKeepValid(s: Store, sides: Sides)
    requires ValidStore(s.values) && ValidFamily(MARGIN)
    ensures ValidStore(AssignSides(s, MARGIN, sides).after.values)
    ensures ValidStore(RemoveSides(s, MARGIN).values)
  {
    MarginIsValid();
    var r := AssignSides(s, MARGIN, sides);
    if r.raised.None? {
      AcceptsEveryEdge(MARGIN, sides);
      WriteEdgesKeepValid(s.values, sides, 4);
    } else {
      WriteEdgesKeepValid(s.values, sides, RejectedEdge(MARGIN, sides));
    }
    assert Edges(MARGIN) == [MARGIN_TOP, MARGIN_RIGHT, MARGIN_BOTTOM, MARGIN_LEFT];
    var t' := Remove(s, MARGIN_TOP);
    RemoveKeepsValid(s, MARGIN_TOP);
    var u' := Remove(t', MARGIN_RIGHT);
    RemoveKeepsValid(t', MARGIN_RIGHT);
    var b' := Remove(u', MARGIN_BOTTOM);
    RemoveKeepsValid(u', MARGIN_BOTTOM);
    RemoveKeepsValid(b', MARGIN_LEFT);
  }

  /** Writing accepted sides to the first `k` margin edges keeps the declaration invariant. */
  lemma {:induction false} WriteEdgesKeepValid(values: map<string, Value>, sides: Sides, k: nat)
    requires k <= 4 && ValidStore(values)
    requires forall j :: 0 <= j < k ==> Accepts(Edges(MARGIN)[j].choices, SidesTuple(sides)[j])
    ensures ValidStore(WriteEdges(values, MARGIN, sides, k))
  {
    if k > 0 {
      WriteEdgesKeepValid(values, sides, k - 1);
      MarginIsValid();
      var e := Edges(MARGIN)[k - 1];
      assert e in Edges(MARGIN);
      StoreKeepsValid(WriteEdges(values, MARGIN, sides, k - 1), e, SidesTuple(sides)[k - 1]);
    }
  }

  /** Storing an accepted value of a registered property keeps the declaration invariant. */
  lemma StoreKeepsValid(values: map<string, Value>, p: Property, v: Value)
    requires ValidStore(values) && PlainNamed(p.name) == Some(p) && Accepts(p.choices, v)
    ensures ValidStore(values[p.name := v])
  {
  }

  /** Setting an attribute keeps the declaration invariant, whether or not it raises. */
  lemma SetAttrKeepsValid(s: Store, name: string, a: Arg)
    requires ValidStore(s.values)
    ensures ValidStore(SetAttr(s, name, a).after.values)
  {
    match Lookup(name)
    case None =>
    case Some(Plain(p)) =>
      if a.Scalar? {
        AssignKeepsValid(s, p, a.v);
      }
    case Some(Shorthand(f)) =>
      MarginIsValid();
      match Expand(ShorthandValues(a))
      case None =>
      case Some(sides) => SidesKeepValid(s, sides);
  }

  /** Deleting an attribute keeps the declaration invariant. */
  lemma DelAttrKeepsValid(s: Store, name: string)
    requires ValidStore(s.values)
    ensures ValidStore(DelAttr(s, name).after.values)
  {
    match Lookup(name)
    case None =>
    case Some(Plain(p)) => RemoveKeepsValid(s, p);
    case Some(Shorthand(f)) => SidesKeepValid(s, Sides(NoneV, NoneV, NoneV, NoneV));
  }

  /** A bulk assignment keeps the declaration invariant. */
  lemma {:induction false} BulkSetKeepsValid(s: Store, pairs: seq<(string, Arg)>)
    requires ValidStore(s.values)
    ensures ValidStore(ApplyAll(s, pairs).after.values)
    ensures ValidStore(BulkSet(s, pairs).after.values)
  {
    if pairs != [] {
      var prev := ApplyAll(s, pairs[..|pairs| - 1]);
      BulkSetKeepsValid(s, pairs[..|pairs| - 1]);
      var (name, a) := pairs[|pairs| - 1];
      SetAttrKeepsValid(prev.after, name, a);
      DelAttrKeepsValid(prev.after, name);
    }
  }

  // Properties of attribute access.

  /** An accepted assignment of a value to a property reads back as that value. */
  lemma SetAttrReadsBack(s: Store, name: string, v: Value)
    requires PlainNamed(name).Some?
    ensures var r := SetAttr(s, name, Scalar(v));
      r.raised.None? ==> GetAttr(r.after.values, name) == Some(Scalar(v))
  {
  }

  /**
    An accepted shorthand assignment reads back as its fill-rule expansion;
    in particular a scalar `v` reads back as `(v, v, v, v)`.
  */
  lemma SetShorthandReadsBack(s: Store, a: Arg)
    ensures var r := SetAttr(s, MARGIN.name, a);
      r.raised.None? ==>
        Expand(ShorthandValues(a)).Some?
        && GetAttr(r.after.values, MARGIN.name) == Some(Tuple(SidesTuple(Expand(ShorthandValues(a)).value)))
  {
    MarginIsValid();
  }

  /** An empty declaration reads every property as its default, and the shorthand as the edges' defaults. */
  lemma EmptyReadsDefaults()
    ensures GetAttr(map[], "width") == Some(Scalar(AUTO))
    ensures GetAttr(map[], "height") == Some(Scalar(AUTO))
    ensures GetAttr(map[], "top") == Some(Scalar(AUTO))
    ensures GetAttr(map[], "min_width") == Some(Scalar(Int(0)))
    ensures GetAttr(map[], "max_width") == Some(Scalar(NoneV))
    ensures GetAttr(map[], "display") == Some(Scalar(INLINE))
    ensures GetAttr(map[], "margin") == Some(Tuple([Int(0), Int(0), Int(0), Int(0)]))
  {
    RegisteredLow(0);
    RegisteredLow(1);
    RegisteredLow(2);
    RegisteredLow(3);
    RegisteredLow(4);
    RegisteredHigh(5);
  }

  /** The shorthand's getter is the tuple of the four edge getters, in the order top, right, bottom, left. */
  lemma MarginGetters(values: map<string, Value>, sides: Sides)
    requires ReadSides(values, MARGIN) == sides
    ensures GetAttr(values, "margin") == Some(Tuple([sides.top, sides.right, sides.bottom, sides.left]))
    ensures GetAttr(values, "margin_top") == Some(Scalar(sides.top))
    ensures GetAttr(values, "margin_right") == Some(Scalar(sides.right))
    ensures GetAttr(values, "margin_bottom") == Some(Scalar(sides.bottom))
    ensures GetAttr(values, "margin_left") == Some(Scalar(sides.left))
  {
  }

  // Rendering.

  /** One `name: value` entry of the rendered declaration. */
  datatype Item = Item(name: string, text: string)

  function ItemName(it: Item): string
  {
    it.name
  }

  function ItemOf(values: map<string, Value>, p: Property): Item
    requires p.name in values
  {
    Item(DashCase(p.name), CssText(values[p.name]))
  }

  /** The entries of the stored properties among `ps`, in the order of `ps`. */
  function StoredItems(values: map<string, Value>, ps: seq<Property>): (r: seq<Item>)
    ensures forall it :: it in r <==> exists p :: p in ps && p.name in values && it == ItemOf(values, p)
  {
    if ps == [] then []
    else
      var rest := StoredItems(values, ps[..|ps| - 1]);
      var p := ps[|ps| - 1];
      assert ps == ps[..|ps| - 1] + [p];
      rest + (if p.name in values then [ItemOf(values, p)] else [])
  }

  function Lines(items: seq<Item>): (r: seq<string>)
    ensures |r| == |items|
  {
    seq(|items|, i requires 0 <= i < |items| => items[i].name + ": " + items[i].text)
  }

  /** The entries `str()` lists: the stored properties, sorted by their dash-cased names. */
  function RenderedItems(values: map<string, Value>): seq<Item>
  {
    SortBy(StoredItems(values, PLAINS), ItemName)
  }

  /** `str(declaration)`: empty exactly when no property is stored. */
  function Render(values: map<string, Value>): (r: string)
    ensures r == "" <==> forall p :: p in PLAINS ==> p.name !in values
  {
    RenderedEmpty(values);
    JoinStartsWithFirst(Lines(RenderedItems(values)), "; ");
    Join(Lines(RenderedItems(values)), "; ")
  }

  /** The rendering lists nothing exactly when no property is stored. */
  lemma RenderedEmpty(values: map<string, Value>)
    ensures var lines := Lines(RenderedItems(values));
      (lines == [] <==> forall p :: p in PLAINS ==> p.name !in values)
      && (lines != [] ==> lines[0] != "")
  {
    RenderedItemsShape(values);
    StoredItemsEmpty(values, PLAINS);
    var items := RenderedItems(values);
    if items != [] {
      assert items[0] in items;
      assert Lines(items)[0] == items[0].name + ": " + items[0].text;
    }
  }

  lemma {:induction false} StoredItemsEmpty(values: map<string, Value>, ps: seq<Property>)
    ensures StoredItems(values, ps) == [] <==> forall p :: p in ps ==> p.name !in values
  {
    if ps != [] {
      var front, p := ps[..|ps| - 1], ps[|ps| - 1];
      StoredItemsEmpty(values, front);
      assert ps == front + [p];
      assert forall q :: q in ps <==> q in front || q == p;
    }
  }

  /** Dash-casing loses nothing on names that contain no dash. */
  lemma {:induction false} DashCaseInjective(a: string, b: string)
    requires '-' !in a && '-' !in b && DashCase(a) == DashCase(b)
    ensures a == b
  {
    assert |a| == |b|;
    forall i | 0 <= i < |a|
      ensures a[i] == b[i]
    {
      assert DashCase(a)[i] == DashCase(b)[i];
    }
  }

  /**
    What `str()` lists: exactly one entry per stored property, named by its
    dash-cased name (so the shorthand appears as its four edges), in ascending
    order of names.
  */
  lemma RenderedItemsShape(values: map<string, Value>)
    ensures SortedBy(RenderedItems(values), ItemName)
    ensures forall it :: it in RenderedItems(values) <==>
      exists p :: p in PLAINS && p.name in values && it == ItemOf(values, p)
    ensures |RenderedItems(values)| == |StoredItems(values, PLAINS)|
  {
    SortByMembers(StoredItems(values, PLAINS), ItemName);
  }

  /** No two entries share a name. */
  lemma StoredItemsDistinct(values: map<string, Value>)
    ensures KeysDistinct(StoredItems(values, PLAINS), ItemName)
  {
    var items := StoredItems(values, PLAINS);
    forall i, j | 0 <= i < |items| && 0 <= j < |items| && ItemName(items[i]) == ItemName(items[j])
      ensures items[i] == items[j]
    {
      assert items[i] in items && items[j] in items;
      var p :| p in PLAINS && p.name in values && items[i] == ItemOf(values, p);
      var q :| q in PLAINS && q.name in values && items[j] == ItemOf(values, q);
      Undashed(p);
      Undashed(q);
      DashCaseInjective(p.name, q.name);
    }
  }

  /**
    The rendering does not depend on the order in which properties are
    enumerated: any arrangement of the entries, sorted by name, renders alike.
  */
  lemma RenderIgnoresOrder(values: map<string, Value>, items: seq<Item>)
    requires multiset(items) == multiset(StoredItems(values, PLAINS))
    ensures SortBy(items, ItemName) == RenderedItems(values)
  {
    StoredItemsDistinct(values);
    var a, b := SortBy(StoredItems(values, PLAINS), ItemName), SortBy(items, ItemName);
    SortByPermutes(StoredItems(values, PLAINS), ItemName);
    SortByPermutes(items, ItemName);
    assert KeysDistinct(a, ItemName) by {
      forall i, j | 0 <= i < |a| && 0 <= j < |a| && ItemName(a[i]) == ItemName(a[j])
        ensures a[i] == a[j]
      {
        var stored := StoredItems(values, PLAINS);
        assert a[i] in multiset(stored) && a[j] in multiset(stored);
        var i' :| 0 <= i' < |stored| && stored[i'] == a[i];
        var j' :| 0 <= j' < |stored| && stored[j'] == a[j];
      }
    }
    SortedByUnique(a, b, ItemName);
  }

  /** A declaration as an object updated in place; `dirty` stands for the node layout's flag. */
  class CSS {
    var values: map<string, Value>
    var dirty: DirtyFlag

    constructor ()
      ensures values == map[] && dirty == Unset
      ensures Valid()
    {
      values := map[];
      dirty := Unset;
    }

    function State(): Store
      reads this
    {
      Store(values, dirty)
    }

    /** The declaration invariant: only registered properties are stored, each inside its domain. */
    predicate Valid()
      reads this
    {
      ValidStore(values)
    }

    /** The attribute getter. Reading never changes anything; in a valid declaration every property reads as a value of its domain. */
    function Get(name: string): (r: Option<Arg>)
      reads this
      ensures Valid() && PlainNamed(name).Some? ==>
        r.Some? && r.value.Scalar? && Accepts(PlainNamed(name).value.choices, r.value.v)
    {
      GetAttr(values, name)
    }

    /** What the node does when its layout is cleaned or reset. */
    method SetDirty(flag: DirtyFlag)
      modifies this
      ensures dirty == flag && values == old(values)
    {
      dirty := flag;
    }

    /** One validated property's setter. */
    method SetProperty(p: Property, v: Value) returns (raised: Option<Error>)
      modifies this
      ensures Outcome(State(), raised) == Assign(old(State()), p, v)
    {
      raised := None;
      if !Accepts(p.choices, v) {
        raised := Some(InvalidValue(InvalidValueMessage(p.name, QuotedText(v), p.choices)));
      } else if !StoredAs(values, p, v) {
        values := values[p.name := v];
        dirty := Dirty;
      }
    }

    /** One validated property's deleter. */
    method DeleteProperty(p: Property)
      modifies this
      ensures State() == Remove(old(State()), p)
    {
      if p.name in values {
        values := values - {p.name};
        dirty := Dirty;
      }
    }

    /** The shorthand's setter: the edges are assigned one after another. */
    method SetSides(f: Family, sides: Sides) returns (raised: Option<Error>)
      requires ValidFamily(f)
      modifies this
      ensures Outcome(State(), raised) == AssignSides(old(State()), f, sides)
    {
      raised := SetProperty(f.top, sides.top);
      if raised.Some? { return; }
      raised := SetProperty(f.right, sides.right);
      if raised.Some? { return; }
      raised := SetProperty(f.bottom, sides.bottom);
      if raised.Some? { return; }
      raised := SetProperty(f.left, sides.left);
    }

    /** `setattr(declaration, name, a)`. */
    method Set(name: string, a: Arg) returns (raised: Option<Error>)
      modifies this
      ensures Outcome(State(), raised) == SetAttr(old(State()), name, a)
      ensures old(Valid()) ==> Valid()
    {
      if Valid() {
        SetAttrKeepsValid(State(), name, a);
      }
      match Lookup(name)
      case None =>
        raised := Some(UnknownProperty(name));
      case Some(Plain(p)) =>
        match a {
          case Scalar(v) =>
            raised := SetProperty(p, v);
          case Tuple(_) =>
            raised := Some(InvalidValue(InvalidValueMessage(p.name, ArgRepr(a), p.choices)));
        }
      case Some(Shorthand(f)) =>
        MarginIsValid();
        var vs := ShorthandValues(a);
        match Expand(vs)
        case None =>
          raised := Some(InvalidArity(f.name, |vs|));
        case Some(sides) =>
          raised := SetSides(f, sides);
    }

    /** `delattr(declaration, name)`. */
    method Delete(name: string) returns (raised: Option<Error>)
      modifies this
      ensures Outcome(State(), raised) == DelAttr(old(State()), name)
      ensures old(Valid()) ==> Valid()
    {
      if Valid() {
        DelAttrKeepsValid(State(), name);
      }
      raised := None;
      match Lookup(name)
      case None =>
        raised := Some(UnknownProperty(name));
      case Some(Plain(p)) =>
        DeleteProperty(p);
      case Some(Shorthand(f)) =>
        MarginIsValid();
        DeleteProperty(f.top);
        DeleteProperty(f.right);
        DeleteProperty(f.bottom);
        DeleteProperty(f.left);
    }

    /** The check `set` makes before assigning anything: the first name that is no attribute. */
    method FindUnknown(pairs: seq<(string, Arg)>) returns (r: Option<string>)
      ensures r == FirstUnknown(pairs)
    {
      var i := 0;
      while i < |pairs|
        invariant 0 <= i <= |pairs|
        invariant FirstUnknown(pairs) == FirstUnknown(pairs[i..])
      {
        if !Known(pairs[i].0) {
          return Some(pairs[i].0);
        }
        assert pairs[i..][1..] == pairs[i + 1..];
        i := i + 1;
      }
      return None;
    }

    /** One keyword argument of `set`. */
    method SetOrDelete(name: string, a: Arg) returns (raised: Option<Error>)
      modifies this
      ensures Outcome(State(), raised) == BulkItem(old(State()), name, a)
      ensures old(Valid()) ==> Valid()
    {
      if a == Scalar(NoneV) {
        raised := Delete(name);
      } else {
        raised := Set(name, a);
      }
    }

    /** `set(**styles)`. */
    method SetMany(pairs: seq<(string, Arg)>) returns (raised: Option<Error>)
      modifies this
      ensures Outcome(State(), raised) == BulkSet(old(State()), pairs)
      ensures old(Valid()) ==> Valid()
    {
      ghost var s0 := State();
      if Valid() {
        BulkSetKeepsValid(s0, pairs);
      }
      var unknown := FindUnknown(pairs);
      BulkSetCases(s0, pairs);
      if unknown.Some? {
        return Some(UnknownProperty(unknown.value));
      }
      var i := 0;
      assert pairs[..0] == [];
      while i < |pairs|
        invariant 0 <= i <= |pairs|
        invariant ApplyAll(s0, pairs[..i]) == Outcome(State(), None)
      {
        var (name, a) := pairs[i];
        ApplyAllStep(s0, pairs, i, State());
        raised := SetOrDelete(name, a);
        if raised.Some? {
          ApplyAllStops(s0, pairs, i + 1);
          return;
        }
        i := i + 1;
      }
      assert pairs[..i] == pairs;
      raised := None;
    }

    /** `str(declaration)`: the stored properties are collected, sorted by name and joined. */
    method ToText() returns (text: string)
      ensures text == Render(values)
    {
      var items: seq<Item> := [];
      var i := 0;
      while i < |PLAINS|
        invariant 0 <= i <= |PLAINS|
        invariant items == StoredItems(values, PLAINS[..i])
      {
        var p := PLAINS[i];
        assert PLAINS[..i + 1][..i] == PLAINS[..i];
        if p.name in values {
          items := items + [Item(DashCase(p.name), CssText(values[p.name]))];
        }
        i := i + 1;
      }
      assert PLAINS[..i] == PLAINS;
      text := Join(Lines(SortBy(items, ItemName)), "; ");
    }
  }
}
