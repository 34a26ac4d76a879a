/**
  The declaration tests of colosseum replayed against the `CSS` class: each
  method performs the test's assignments and deletions in order, and the
  assertions between the steps are the test's own expectations, proved from
  the contracts of the class's methods.
*/
module Scenarios {
  import opened Wrappers
  import opened Strings
  import opened Values
  import opened Domain
  import opened Declaration
  import opened Directional
  import opened Css

  // The steps shared by the tests of a single property with an AUTO, 0 or None default.

  /** A registered property that takes the integers 10 and 20. */
  predicate TakesInts(p: Property)
  {
    PlainNamed(p.name) == Some(p) && Accepts(p.choices, Int(10)) && Accepts(p.choices, Int(20))
  }

  /** By its own name, a registered property is set and deleted through its own setter and deleter. */
  lemma ByOwnName(s: Store, p: Property, v: Value)
    requires PlainNamed(p.name) == Some(p)
    ensures SetAttr(s, p.name, Scalar(v)) == Assign(s, p, v)
    ensures DelAttr(s, p.name) == Outcome(Remove(s, p), None)
    ensures GetAttr(s.values, p.name) == Some(Scalar(Read(s.values, p)))
  {
    MarginIsValid();
    assert Lookup(p.name) == Some(Plain(p));
  }

  /** A new declaration reads the property's default, and the layout was never marked. */
  method FreshReadsDefault(p: Property) returns (css: CSS)
    requires TakesInts(p)
    ensures fresh(css) && css.values == map[] && css.dirty == Unset
    ensures css.Get(p.name) == Some(Scalar(p.default))
  {
    css := new CSS();
    ByOwnName(css.State(), p, NoneV);
  }

  /** Assigning 10 to an empty declaration stores it and marks the layout dirty. */
  method AssignTen(css: CSS, p: Property)
    requires TakesInts(p) && css.values == map[]
    modifies css
    ensures css.values == map[p.name := Int(10)] && css.dirty == Dirty
    ensures css.Get(p.name) == Some(Scalar(Int(10)))
  {
    ByOwnName(css.State(), p, Int(10));
    var e := css.Set(p.name, Scalar(Int(10)));
    ByOwnName(css.State(), p, Int(10));
  }

  /** After the layout is cleaned, assigning 10 again leaves it clean. */
  method ReassignTen(css: CSS, p: Property)
    requires TakesInts(p) && css.values == map[p.name := Int(10)]
    modifies css
    ensures css.values == map[p.name := Int(10)] && css.dirty == Clean
    ensures css.Get(p.name) == Some(Scalar(Int(10)))
  {
    css.SetDirty(Clean);
    ByOwnName(css.State(), p, Int(10));
    var e := css.Set(p.name, Scalar(Int(10)));
    ByOwnName(css.State(), p, Int(10));
  }

  /** Changing 10 to 20 marks the layout dirty. */
  method AssignTwenty(css: CSS, p: Property)
    requires TakesInts(p) && css.values == map[p.name := Int(10)]
    modifies css
    ensures css.values == map[p.name := Int(20)] && css.dirty == Dirty
    ensures css.Get(p.name) == Some(Scalar(Int(20)))
  {
    ByOwnName(css.State(), p, Int(20));
    var e := css.Set(p.name, Scalar(Int(20)));
    ByOwnName(css.State(), p, Int(20));
  }

  /** After the layout is cleaned, deleting the stored value restores the default and marks the layout dirty. */
  method DeleteStored(css: CSS, p: Property)
    requires TakesInts(p) && css.values == map[p.name := Int(20)]
    modifies css
    ensures css.values == map[] && css.dirty == Dirty
    ensures css.Get(p.name) == Some(Scalar(p.default))
  {
    css.SetDirty(Clean);
    ByOwnName(css.State(), p, NoneV);
    var e := css.Delete(p.name);
    ByOwnName(css.State(), p, NoneV);
  }

  /** After the layout is cleaned, deleting a property that is not stored changes nothing. */
  method DeleteAgain(css: CSS, p: Property)
    requires TakesInts(p) && css.values == map[]
    modifies css
    ensures css.values == map[] && css.dirty == Clean
    ensures css.Get(p.name) == Some(Scalar(p.default))
  {
    css.SetDirty(Clean);
    ByOwnName(css.State(), p, NoneV);
    var e := css.Delete(p.name);
    ByOwnName(css.State(), p, NoneV);
  }

  /** A property defaulting to AUTO: set, re-set, change, delete, delete again. */
  method AutoDefaultScenario() returns (css: CSS)
    ensures css.Get("width") == Some(Scalar(AUTO)) && css.dirty == Clean
  {
    css := FreshReadsDefault(WIDTH);
    AssignTen(css, WIDTH);
    ReassignTen(css, WIDTH);
    AssignTwenty(css, WIDTH);
    DeleteStored(css, WIDTH);
    DeleteAgain(css, WIDTH);
  }

  /** A property defaulting to 0. */
  method ZeroDefaultScenario() returns (css: CSS)
    ensures css.Get("min_width") == Some(Scalar(Int(0))) && css.dirty == Dirty
  {
    css := FreshReadsDefault(MIN_WIDTH);
    AssignTen(css, MIN_WIDTH);
    ReassignTen(css, MIN_WIDTH);
    AssignTwenty(css, MIN_WIDTH);
    DeleteStored(css, MIN_WIDTH);
  }

  /** A property defaulting to None. */
  method NoneDefaultScenario() returns (css: CSS)
    ensures css.Get("max_width") == Some(Scalar(NoneV)) && css.dirty == Dirty
  {
    css := FreshReadsDefault(MAX_WIDTH);
    AssignTen(css, MAX_WIDTH);
    ReassignTen(css, MAX_WIDTH);
    AssignTwenty(css, MAX_WIDTH);
    DeleteStored(css, MAX_WIDTH);
  }

  /** The display keywords used below lie in the domain of `display`; a number does not. */
  lemma DisplayChoices()
    ensures Accepts(DISPLAY.choices, BLOCK) && Accepts(DISPLAY.choices, TABLE)
    ensures !Accepts(DISPLAY.choices, Int(10))
  {
    assert DISPLAY.choices.literals[1] == BLOCK && DISPLAY.choices.literals[4] == TABLE;
    DisplayKeywordsOnly();
  }

  /** Every literal of `display` is a keyword. */
  lemma DisplayKeywordsOnly()
    ensures forall v :: v in DISPLAY.choices.literals ==> v.Keyword?
  {
    var l := DISPLAY.choices.literals;
    assert forall i :: 0 <= i < |l| ==> l[i].Keyword?;
  }

  /** A property with a keyword domain: a number is refused, keywords are accepted. */
  method ChoicesScenario() returns (css: CSS)
    ensures css.Get("display") == Some(Scalar(INLINE)) && css.dirty == Dirty
  {
    css := FreshDisplay();
    var e := RefuseNumber(css);
    assert e.Some? && IsValueError(e.value) && css.values == map[];
    SetBlock(css);
    ChangeDisplay(css);
  }

  /** A new declaration: `display` reads as INLINE and the layout was never marked. */
  method FreshDisplay() returns (css: CSS)
    ensures fresh(css) && css.values == map[] && css.dirty == Unset
    ensures css.Get("display") == Some(Scalar(INLINE))
  {
    css := new CSS();
    EmptyReadsDefaults();
  }

  /** `display = 10` raises a `ValueError` and leaves the declaration as it was. */
  method RefuseNumber(css: CSS) returns (e: Option<Error>)
    modifies css
    ensures e.Some? && IsValueError(e.value)
    ensures css.values == old(css.values) && css.dirty == old(css.dirty)
  {
    DisplayChoices();
    ByOwnName(css.State(), DISPLAY, Int(10));
    e := css.Set("display", Scalar(Int(10)));
  }

  /** `display = BLOCK` on an empty declaration stores the keyword and marks the layout dirty. */
  method SetBlock(css: CSS)
    requires css.values == map[]
    modifies css
    ensures css.values == map["display" := BLOCK] && css.dirty == Dirty
  {
    DisplayChoices();
    ByOwnName(css.State(), DISPLAY, BLOCK);
    var e := css.Set("display", Scalar(BLOCK));
  }

  /** The second half of the keyword-domain test: re-set, change, then delete. */
  method ChangeDisplay(css: CSS)
    requires css.values == map["display" := BLOCK]
    modifies css
    ensures css.Get("display") == Some(Scalar(INLINE)) && css.dirty == Dirty
  {
    Reassign(css);
    SetTable(css);
    DeleteDisplay(css);
    EmptyReadsDefaults();
  }

  /** Assigning BLOCK again after the layout was cleaned leaves it clean. */
  method Reassign(css: CSS)
    requires css.values == map["display" := BLOCK]
    modifies css
    ensures css.values == map["display" := BLOCK] && css.dirty == Clean
  {
    DisplayChoices();
    css.SetDirty(Clean);
    var e := css.Set("display", Scalar(BLOCK));
  }

  /** Changing BLOCK to TABLE marks the layout dirty. */
  method SetTable(css: CSS)
    requires css.values == map["display" := BLOCK]
    modifies css
    ensures css.values == map["display" := TABLE] && css.dirty == Dirty
  {
    DisplayChoices();
    ByOwnName(css.State(), DISPLAY, TABLE);
    var e := css.Set("display", Scalar(TABLE));
  }

  /** Deleting a stored `display` after the layout was cleaned marks it dirty again. */
  method DeleteDisplay(css: CSS)
    requires css.values == map["display" := TABLE]
    modifies css
    ensures css.values == map[] && css.dirty == Dirty
  {
    css.SetDirty(Clean);
    var e := css.Delete("display");
  }

  /** Four integer sides. */
  function Px(top: int, right: int, bottom: int, left: int): Sides
  {
    Sides(Int(top), Int(right), Int(bottom), Int(left))
  }

  /**
    The shorthand and its edges: one edge set alone, the shorthand set with one
    to four values, refused with none or five, one edge deleted, the shorthand
    deleted.
  */
  method DirectionalScenario() returns (css: CSS)
    ensures css.Get("margin") == Some(Tuple([Int(0), Int(0), Int(0), Int(0)])) && css.dirty == Dirty
  {
    css := new CSS();
    MarginGetters(css.values, Px(0, 0, 0, 0));
    assert css.Get("margin") == Some(Tuple([Int(0), Int(0), Int(0), Int(0)])) && css.dirty == Unset;

    SetEdge(css, MARGIN_TOP, 10);
    MarginGetters(css.values, Px(10, 0, 0, 0));
    assert css.Get("margin") == Some(Tuple([Int(10), Int(0), Int(0), Int(0)])) && css.dirty == Dirty;

    css.SetDirty(Clean);
    SetMargin(css, Tuple([Int(10)]), Px(10, 10, 10, 10));
    MarginGetters(css.values, Px(10, 10, 10, 10));
    assert css.Get("margin_left") == Some(Scalar(Int(10))) && css.dirty == Dirty;

    css.SetDirty(Clean);
    SetMargin(css, Scalar(Int(30)), Px(30, 30, 30, 30));
    MarginGetters(css.values, Px(30, 30, 30, 30));
    assert css.Get("margin") == Some(Tuple([Int(30), Int(30), Int(30), Int(30)])) && css.dirty == Dirty;

    MoreSides(css);
  }

  /** The second half of the shorthand test, from sides of 30 on every edge. */
  method MoreSides(css: CSS)
    requires ReadSides(css.values, MARGIN) == Px(30, 30, 30, 30)
    requires css.values.Keys <= EdgeNames(MARGIN)
    modifies css
    ensures css.Get("margin") == Some(Tuple([Int(0), Int(0), Int(0), Int(0)])) && css.dirty == Dirty
  {
    css.SetDirty(Clean);
    SetMargin(css, Tuple([Int(10), Int(20)]), Px(10, 20, 10, 20));
    MarginGetters(css.values, Px(10, 20, 10, 20));
    assert css.Get("margin") == Some(Tuple([Int(10), Int(20), Int(10), Int(20)])) && css.dirty == Dirty;

    css.SetDirty(Clean);
    SetMargin(css, Tuple([Int(10), Int(20), Int(30)]), Px(10, 20, 30, 20));
    MarginGetters(css.values, Px(10, 20, 30, 20));
    assert css.Get("margin") == Some(Tuple([Int(10), Int(20), Int(30), Int(20)])) && css.dirty == Dirty;

    css.SetDirty(Clean);
    SetMargin(css, Tuple([Int(10), Int(20), Int(30), Int(40)]), Px(10, 20, 30, 40));

    RefuseArity(css, []);
    RefuseArity(css, [Int(10), Int(20), Int(30), Int(40), Int(50)]);
    MarginGetters(css.values, Px(10, 20, 30, 40));
    assert css.Get("margin") == Some(Tuple([Int(10), Int(20), Int(30), Int(40)])) && css.dirty == Dirty;

    css.SetDirty(Clean);
    DeleteTop(css);
    MarginGetters(css.values, Px(0, 20, 30, 40));
    assert css.Get("margin") == Some(Tuple([Int(0), Int(20), Int(30), Int(40)])) && css.dirty == Dirty;

    SetEdge(css, MARGIN_TOP, 10);
    css.SetDirty(Clean);
    DeleteMargin(css);
    MarginGetters(css.values, Px(0, 0, 0, 0));
  }

  /** `margin_top = n` on a declaration storing nothing but margins. */
  method SetEdge(css: CSS, p: Property, n: int)
    requires p == MARGIN_TOP && Read(css.values, p) != Int(n)
    requires css.values.Keys <= EdgeNames(MARGIN)
    modifies css
    ensures ReadSides(css.values, MARGIN) == ReadSides(old(css.values), MARGIN).(top := Int(n))
    ensures css.values.Keys <= EdgeNames(MARGIN) && css.dirty == Dirty
  {
    var e := css.Set(p.name, Scalar(Int(n)));
    ghost var before := old(css.values);
    ReadOther(before, css.values, p, MARGIN_RIGHT);
    ReadOther(before, css.values, p, MARGIN_BOTTOM);
    ReadOther(before, css.values, p, MARGIN_LEFT);
  }

  /** `margin = a` where `a` expands to new accepted sides. */
  method SetMargin(css: CSS, a: Arg, sides: Sides)
    requires Expand(ShorthandValues(a)) == Some(sides) && AcceptsSides(MARGIN, sides)
    requires ReadSides(css.values, MARGIN) != sides
    requires css.values.Keys <= EdgeNames(MARGIN)
    modifies css
    ensures ReadSides(css.values, MARGIN) == sides
    ensures css.values.Keys <= EdgeNames(MARGIN) && css.dirty == Dirty
  {
    MarginIsValid();
    ghost var before := css.values;
    MarginSetsSides(css.State(), a, sides);
    var e := css.Set("margin", a);
    OnlyEdgesStored(before, css.values, EdgeNames(MARGIN));
  }

  /** A store that holds only the given names still holds only them after a change confined to those names. */
  lemma OnlyEdgesStored(before: map<string, Value>, after: map<string, Value>, edges: set<string>)
    requires after - edges == before - edges && before.Keys <= edges
    ensures after.Keys <= edges
  {
    assert forall k :: k in after && k !in edges ==> k in (after - edges).Keys;
  }

  /** Assigning the shorthand is assigning its expansion to the four edges. */
  lemma MarginSetsSides(s: Store, a: Arg, sides: Sides)
    requires Expand(ShorthandValues(a)) == Some(sides) && ValidFamily(MARGIN)
    ensures SetAttr(s, "margin", a) == AssignSides(s, MARGIN, sides)
  {
    assert Lookup("margin") == Some(Shorthand(MARGIN));
  }

  /** `margin = vs` with no values or more than four raises a `ValueError` and changes nothing. */
  method RefuseArity(css: CSS, vs: seq<Value>)
    requires |vs| == 0 || |vs| > 4
    modifies css
    ensures css.values == old(css.values) && css.dirty == old(css.dirty)
  {
    MarginIsValid();
    var e := css.Set("margin", Tuple(vs));
    BadArityRefused(old(css.State()), MARGIN, vs);
    assert e.Some? && IsValueError(e.value);
  }

  /** `del margin_top` while the top margin is stored. */
  method DeleteTop(css: CSS)
    requires MARGIN_TOP.name in css.values
    requires css.values.Keys <= EdgeNames(MARGIN)
    modifies css
    ensures ReadSides(css.values, MARGIN) == ReadSides(old(css.values), MARGIN).(top := Int(0))
    ensures css.values.Keys <= EdgeNames(MARGIN) && css.dirty == Dirty
  {
    var e := css.Delete("margin_top");
    ghost var before := old(css.values);
    ReadOther(before, css.values, MARGIN_TOP, MARGIN_RIGHT);
    ReadOther(before, css.values, MARGIN_TOP, MARGIN_BOTTOM);
    ReadOther(before, css.values, MARGIN_TOP, MARGIN_LEFT);
  }

  /** `del margin` while the top margin is stored. */
  method DeleteMargin(css: CSS)
    requires MARGIN_TOP.name in css.values
    modifies css
    ensures ReadSides(css.values, MARGIN) == Px(0, 0, 0, 0) && css.dirty == Dirty
  {
    MarginIsValid();
    var e := css.Delete("margin");
  }

  /** `set` assigns several properties at once; `None` deletes; an unknown name assigns nothing. */
  method SetMultipleScenario() returns (css: CSS)
    ensures css.values == map["height" := Int(20), "top" := Int(30)] && css.dirty == Clean
  {
    css := new CSS();
    SetTwo(css);
    BulkReads();
    assert css.Get("width") == Some(Scalar(Int(10))) && css.Get("top") == Some(Scalar(AUTO));
    ClearAndSet(css);
    assert css.Get("width") == Some(Scalar(AUTO)) && css.Get("top") == Some(Scalar(Int(30)));
    css.SetDirty(Clean);
    RefuseUnknown(css);
  }

  /** What the getters return after each of the two `set` calls. */
  lemma BulkReads()
    ensures GetAttr(map["width" := Int(10), "height" := Int(20)], "width") == Some(Scalar(Int(10)))
    ensures GetAttr(map["width" := Int(10), "height" := Int(20)], "top") == Some(Scalar(AUTO))
    ensures GetAttr(map["height" := Int(20), "top" := Int(30)], "width") == Some(Scalar(AUTO))
    ensures GetAttr(map["height" := Int(20), "top" := Int(30)], "top") == Some(Scalar(Int(30)))
  {
    assert Lookup("width") == Some(Plain(WIDTH)) && Lookup("top") == Some(Plain(TOP));
  }

  /** `set(not_a_property=10)` raises a `NameError` and changes nothing. */
  method RefuseUnknown(css: CSS)
    modifies css
    ensures css.values == old(css.values) && css.dirty == old(css.dirty)
  {
    var pairs := [("not_a_property", Scalar(Int(10)))];
    assert !Known(pairs[0].0);
    BulkSetCases(css.State(), pairs);
    var e := css.SetMany(pairs);
    assert e == Some(UnknownProperty("not_a_property"));
  }

  /** `set(width=10, height=20)` on an empty declaration. */
  method SetTwo(css: CSS)
    requires css.values == map[]
    modifies css
    ensures css.values == map["width" := Int(10), "height" := Int(20)] && css.dirty == Dirty
  {
    var pairs := [("width", Scalar(Int(10))), ("height", Scalar(Int(20)))];
    ghost var s0 := css.State();
    assert Known(pairs[0].0) && Known(pairs[1].0);
    BulkSetCases(s0, pairs);
    assert pairs[..1] == [pairs[0]] && pairs[..1][..0] == [];
    ghost var t := Store(map["width" := Int(10)], Dirty);
    assert ApplyAll(s0, pairs[..1]) == SetAttr(s0, "width", Scalar(Int(10))) == Outcome(t, None);
    assert ApplyAll(s0, pairs) == SetAttr(t, "height", Scalar(Int(20)));
    var e := css.SetMany(pairs);
  }

  /** `set(width=None, top=30)`: the width is deleted and the top assigned. */
  method ClearAndSet(css: CSS)
    requires css.values == map["width" := Int(10), "height" := Int(20)]
    modifies css
    ensures css.values == map["height" := Int(20), "top" := Int(30)] && css.dirty == Dirty
  {
    var pairs := [("width", Scalar(NoneV)), ("top", Scalar(Int(30)))];
    ghost var s0 := css.State();
    assert Known(pairs[0].0) && Known(pairs[1].0);
    BulkSetCases(s0, pairs);
    assert pairs[..1] == [pairs[0]] && pairs[..1][..0] == [];
    ghost var t := Store(map["height" := Int(20)], Dirty);
    assert map["width" := Int(10), "height" := Int(20)] - {"width"} == t.values;
    assert ApplyAll(s0, pairs[..1]) == DelAttr(s0, "width") == Outcome(t, None);
    assert ApplyAll(s0, pairs) == SetAttr(t, "top", Scalar(Int(30)));
    var e := css.SetMany(pairs);
  }

  // The rendering test.

  /** What the rendering test stores, stated key by key. */
  predicate Styled(values: map<string, Value>)
  {
    && values.Keys == {"width", "height", "margin_top", "margin_right", "margin_bottom", "margin_left", "display"}
    && values["width"] == Int(10) && values["height"] == Int(20)
    && values["margin_top"] == Int(30) && values["margin_right"] == Int(40)
    && values["margin_bottom"] == Int(50) && values["margin_left"] == Int(60)
    && values["display"] == BLOCK
  }

  /** Integers are written in pixels. */
  lemma PixelTexts()
    ensures CssText(Int(10)) == "10px" && CssText(Int(20)) == "20px" && CssText(Int(30)) == "30px"
    ensures CssText(Int(40)) == "40px" && CssText(Int(50)) == "50px" && CssText(Int(60)) == "60px"
  {
    PixelText(1);
    PixelText(2);
    PixelText(3);
    PixelText(4);
    PixelText(5);
    PixelText(6);
  }

  /** A multiple of ten below a hundred is written as its two digits and "px". */
  lemma PixelText(d: nat)
    requires 1 <= d <= 9
    ensures CssText(Int(10 * d)) == [DigitChar(d), '0', 'p', 'x']
  {
    assert NatText(10 * d) == NatText(d) + [DigitChar(0)];
  }

  /** The attribute names of the test as CSS property names. */
  lemma DashedNames()
    ensures DashCase("margin_top") == "margin-top" && DashCase("margin_right") == "margin-right"
    ensures DashCase("margin_bottom") == "margin-bottom" && DashCase("margin_left") == "margin-left"
    ensures DashCase("width") == "width" && DashCase("height") == "height" && DashCase("display") == "display"
  {
  }

  /** The entry of each stored property. */
  lemma StyledItems(values: map<string, Value>)
    requires Styled(values)
    ensures ItemOf(values, WIDTH) == Item("width", "10px") && ItemOf(values, HEIGHT) == Item("height", "20px")
    ensures ItemOf(values, DISPLAY) == Item("display", "block")
    ensures ItemOf(values, MARGIN_TOP) == Item("margin-top", "30px")
    ensures ItemOf(values, MARGIN_RIGHT) == Item("margin-right", "40px")
    ensures ItemOf(values, MARGIN_BOTTOM) == Item("margin-bottom", "50px")
    ensures ItemOf(values, MARGIN_LEFT) == Item("margin-left", "60px")
  {
    PixelTexts();
    DashedNames();
  }

  /** One more property of a registry adds its entry when it is stored. */
  lemma StoredStep(values: map<string, Value>, ps: seq<Property>, k: nat)
    requires k < |ps|
    ensures StoredItems(values, ps[..k + 1]) ==
      StoredItems(values, ps[..k]) + (if ps[k].name in values then [ItemOf(values, ps[k])] else [])
  {
    assert ps[..k + 1][..k] == ps[..k];
  }

  /**
    The stored entries of a registry of ten properties in which the first two
    and the last five are stored.
  */
  lemma StoredOfTen(values: map<string, Value>, ps: seq<Property>)
    requires |ps| == 10
    requires ps[0].name in values && ps[1].name in values
    requires ps[2].name !in values && ps[3].name !in values && ps[4].name !in values
    requires ps[5].name in values && ps[6].name in values && ps[7].name in values
    requires ps[8].name in values && ps[9].name in values
    ensures StoredItems(values, ps) == [
      ItemOf(values, ps[0]), ItemOf(values, ps[1]), ItemOf(values, ps[5]), ItemOf(values, ps[6]),
      ItemOf(values, ps[7]), ItemOf(values, ps[8]), ItemOf(values, ps[9])]
  {
    assert ps[..0] == [];
    StoredStep(values, ps, 0);
    StoredStep(values, ps, 1);
    StoredStep(values, ps, 2);
    StoredStep(values, ps, 3);
    StoredStep(values, ps, 4);
    StoredStep(values, ps, 5);
    StoredStep(values, ps, 6);
    StoredStep(values, ps, 7);
    StoredStep(values, ps, 8);
    StoredStep(values, ps, 9);
    assert ps[..10] == ps;
  }

  /** How the names of the test compare. */
  lemma NamesOrder()
    ensures LessEq("display", "height") && LessEq("height", "margin-bottom") && LessEq("display", "margin-bottom")
    ensures LessEq("margin-bottom", "margin-left")
    ensures !LessEq("margin-right", "margin-bottom") && !LessEq("margin-right", "margin-left")
    ensures !LessEq("margin-top", "margin-bottom") && !LessEq("margin-top", "margin-left")
    ensures !LessEq("margin-top", "margin-right")
    ensures !LessEq("height", "display")
    ensures !LessEq("width", "display") && !LessEq("width", "height") && !LessEq("width", "margin-bottom")
    ensures !LessEq("width", "margin-left") && !LessEq("width", "margin-right") && !LessEq("width", "margin-top")
  {
    assert "margin-bottom" == "margin-" + "bottom" && "margin-left" == "margin-" + "left";
    assert "margin-right" == "margin-" + "right" && "margin-top" == "margin-" + "top";
    assert LessEq("bottom", "left");
    assert !LessEq("right", "bottom") && !LessEq("right", "left");
    assert !LessEq("top", "bottom") && !LessEq("top", "left") && !LessEq("top", "right");
    LessEqCommonPrefix("margin-", "bottom", "left");
    LessEqCommonPrefix("margin-", "right", "bottom");
    LessEqCommonPrefix("margin-", "right", "left");
    LessEqCommonPrefix("margin-", "top", "bottom");
    LessEqCommonPrefix("margin-", "top", "left");
    LessEqCommonPrefix("margin-", "top", "right");
  }

  /** Sorting a sequence inserts its head into its sorted tail. */
  lemma SortByCons(x: Item, xs: seq<Item>)
    ensures SortBy([x] + xs, ItemName) == InsertBy(x, SortBy(xs, ItemName), ItemName)
  {
    assert ([x] + xs)[1..] == xs;
  }

  lemma ConsTwo<T>(a: T, b: T)
    ensures [a] + [b] == [a, b]
  {
  }

  lemma ConsThree<T>(a: T, b: T, c: T)
    ensures [a] + [b, c] == [a, b, c]
  {
  }

  lemma ConsFour<T>(a: T, b: T, c: T, d: T)
    ensures [a] + [b, c, d] == [a, b, c, d]
  {
  }

  lemma ConsFive<T>(a: T, b: T, c: T, d: T, e: T)
    ensures [a] + [b, c, d, e] == [a, b, c, d, e]
  {
  }

  lemma ConsSix<T>(a: T, b: T, c: T, d: T, e: T, f: T)
    ensures [a] + [b, c, d, e, f] == [a, b, c, d, e, f]
  {
  }

  lemma ConsSeven<T>(a: T, b: T, c: T, d: T, e: T, f: T, g: T)
    ensures [a] + [b, c, d, e, f, g] == [a, b, c, d, e, f, g]
  {
  }

  /** The four margins, in registry order top, right, bottom, left, sorted by name. */
  lemma SortMargins(mt: Item, mr: Item, mb: Item, ml: Item)
    requires LessEq(mb.name, ml.name)
    requires !LessEq(mr.name, mb.name) && !LessEq(mr.name, ml.name)
    requires !LessEq(mt.name, mb.name) && !LessEq(mt.name, ml.name) && !LessEq(mt.name, mr.name)
    ensures SortBy([mt, mr, mb, ml], ItemName) == [mb, ml, mr, mt]
  {
    SortRightMargin(mr, mb, ml);
    ConsFour(mt, mr, mb, ml);
    SortByCons(mt, [mr, mb, ml]);
    InsertLast(mt, [mb, ml, mr], ItemName);
  }

  /** Right, bottom and left margins sorted by name. */
  lemma SortRightMargin(mr: Item, mb: Item, ml: Item)
    requires LessEq(mb.name, ml.name)
    requires !LessEq(mr.name, mb.name) && !LessEq(mr.name, ml.name)
    ensures SortBy([mr, mb, ml], ItemName) == [mb, ml, mr]
  {
    ConsTwo(mb, ml);
    ConsThree(mr, mb, ml);
    assert [ml] + [] == [ml];
    SortByCons(ml, []);
    SortByCons(mb, [ml]);
    assert SortBy([mb, ml], ItemName) == [mb, ml];
    SortByCons(mr, [mb, ml]);
    InsertLast(mr, [mb, ml], ItemName);
  }

  /** Display and height go in front of the sorted margins. */
  lemma SortFront(h: Item, d: Item, mt: Item, mr: Item, mb: Item, ml: Item)
    requires SortBy([mt, mr, mb, ml], ItemName) == [mb, ml, mr, mt]
    requires LessEq(d.name, mb.name) && LessEq(h.name, mb.name) && !LessEq(h.name, d.name)
    ensures SortBy([h, d, mt, mr, mb, ml], ItemName) == [d, h, mb, ml, mr, mt]
  {
    SortDisplay(d, mt, mr, mb, ml);
    ConsSix(h, d, mt, mr, mb, ml);
    SortByCons(h, [d, mt, mr, mb, ml]);
    var rest := [mb, ml, mr, mt];
    ConsFive(d, mb, ml, mr, mt);
    InsertPast(h, d, rest, ItemName);
    InsertFront(h, rest, ItemName);
  }

  /** Display goes in front of the sorted margins. */
  lemma SortDisplay(d: Item, mt: Item, mr: Item, mb: Item, ml: Item)
    requires SortBy([mt, mr, mb, ml], ItemName) == [mb, ml, mr, mt]
    requires LessEq(d.name, mb.name)
    ensures SortBy([d, mt, mr, mb, ml], ItemName) == [d, mb, ml, mr, mt]
  {
    ConsFive(d, mt, mr, mb, ml);
    SortByCons(d, [mt, mr, mb, ml]);
  }

  /**
    Sorting the seven entries in registry order (width, height, display, the
    four margins top, right, bottom, left) by name: width goes last.
  */
  lemma SortSeven(w: Item, h: Item, d: Item, mt: Item, mr: Item, mb: Item, ml: Item)
    requires SortBy([h, d, mt, mr, mb, ml], ItemName) == [d, h, mb, ml, mr, mt]
    requires !LessEq(w.name, d.name) && !LessEq(w.name, h.name) && !LessEq(w.name, mb.name)
    requires !LessEq(w.name, ml.name) && !LessEq(w.name, mr.name) && !LessEq(w.name, mt.name)
    ensures SortBy([w, h, d, mt, mr, mb, ml], ItemName) == [d, h, mb, ml, mr, mt, w]
  {
    ConsSeven(w, h, d, mt, mr, mb, ml);
    SortByCons(w, [h, d, mt, mr, mb, ml]);
    InsertLast(w, [d, h, mb, ml, mr, mt], ItemName);
  }

  /** `sep.join` of seven strings, grouped as the rendering test writes its expected text. */
  lemma JoinSeven(a: string, b: string, c: string, d: string, e: string, f: string, g: string, sep: string)
    ensures Join([a, b, c, d, e, f, g], sep) ==
      (a + sep + b + sep) + (c + sep + d + sep) + (e + sep + f + sep + g)
  {
    JoinCons(f, [g], sep);
    ConsTwo(f, g);
    JoinCons(e, [f, g], sep);
    ConsThree(e, f, g);
    JoinCons(d, [e, f, g], sep);
    ConsFour(d, e, f, g);
    JoinCons(c, [d, e, f, g], sep);
    ConsFive(c, d, e, f, g);
    JoinCons(b, [c, d, e, f, g], sep);
    ConsSix(b, c, d, e, f, g);
    JoinCons(a, [b, c, d, e, f, g], sep);
    ConsSeven(a, b, c, d, e, f, g);
  }

  /** The lines of seven entries. */
  lemma LinesSeven(a: Item, b: Item, c: Item, d: Item, e: Item, f: Item, g: Item)
    ensures Lines([a, b, c, d, e, f, g]) == [
      a.name + ": " + a.text, b.name + ": " + b.text, c.name + ": " + c.text, d.name + ": " + d.text,
      e.name + ": " + e.text, f.name + ": " + f.text, g.name + ": " + g.text]
  {
  }

  /** The entries of the rendering test's declaration, in the order `str()` lists them. */
  lemma StyledRendered(values: map<string, Value>)
    requires Styled(values)
    ensures RenderedItems(values) == [
      Item("display", "block"), Item("height", "20px"),
      Item("margin-bottom", "50px"), Item("margin-left", "60px"),
      Item("margin-right", "40px"), Item("margin-top", "30px"),
      Item("width", "10px")]
  {
    StyledItems(values);
    StoredOfTen(values, PLAINS);
    NamesOrder();
    var w, h, d := Item("width", "10px"), Item("height", "20px"), Item("display", "block");
    var mt, mr := Item("margin-top", "30px"), Item("margin-right", "40px");
    var mb, ml := Item("margin-bottom", "50px"), Item("margin-left", "60px");
    assert StoredItems(values, PLAINS) == [w, h, d, mt, mr, mb, ml];
    SortMargins(mt, mr, mb, ml);
    SortFront(h, d, mt, mr, mb, ml);
    SortSeven(w, h, d, mt, mr, mb, ml);
  }

  /** Each entry's line. */
  lemma ExpectedLines()
    ensures "display" + ": " + "block" == "display: block" && "height" + ": " + "20px" == "height: 20px"
    ensures "margin-bottom" + ": " + "50px" == "margin-bottom: 50px"
    ensures "margin-left" + ": " + "60px" == "margin-left: 60px"
    ensures "margin-right" + ": " + "40px" == "margin-right: 40px"
    ensures "margin-top" + ": " + "30px" == "margin-top: 30px" && "width" + ": " + "10px" == "width: 10px"
  {
  }

  /** The first piece of the expected text. */
  lemma FirstPiece()
    ensures "display: block" + "; " + "height: 20px" + "; " == "display: block; height: 20px; "
  {
  }

  /** The second piece of the expected text. */
  lemma SecondPiece()
    ensures "margin-bottom: 50px" + "; " + "margin-left: 60px" + "; " == "margin-bottom: 50px; margin-left: 60px; "
  {
  }

  /** The third piece of the expected text. */
  lemma ThirdPiece()
    ensures "margin-right: 40px" + "; " + "margin-top: 30px" + "; " + "width: 10px"
      == "margin-right: 40px; margin-top: 30px; width: 10px"
  {
    assert "margin-right: 40px" + "; " == "margin-right: 40px; " && "margin-top: 30px" + "; " == "margin-top: 30px; ";
    assert "margin-right: 40px; " + "margin-top: 30px; " == "margin-right: 40px; margin-top: 30px; ";
  }

  /**
    `str()` of the rendering test's declaration: the text it expects, written
    as the test writes it, in three adjacent pieces.
  */
  lemma StyledRender(values: map<string, Value>)
    requires Styled(values)
    ensures Render(values) ==
      "display: block; height: 20px; " +
      "margin-bottom: 50px; margin-left: 60px; " +
      "margin-right: 40px; margin-top: 30px; width: 10px"
  {
    StyledRendered(values);
    LinesSeven(Item("display", "block"), Item("height", "20px"),
      Item("margin-bottom", "50px"), Item("margin-left", "60px"),
      Item("margin-right", "40px"), Item("margin-top", "30px"),
      Item("width", "10px"));
    JoinSeven("display" + ": " + "block", "height" + ": " + "20px",
      "margin-bottom" + ": " + "50px", "margin-left" + ": " + "60px",
      "margin-right" + ": " + "40px", "margin-top" + ": " + "30px",
      "width" + ": " + "10px", "; ");
    ExpectedLines();
    FirstPiece();
    SecondPiece();
    ThirdPiece();
  }

  /** The keyword arguments of the rendering test's `set` call. */
  const STYLE_ARGS: seq<(string, Arg)> := [
    ("width", Scalar(Int(10))), ("height", Scalar(Int(20))),
    ("margin", Tuple([Int(30), Int(40), Int(50), Int(60)])), ("display", Scalar(BLOCK))]

  /** The declaration after the sizes are set. */
  const SIZED: map<string, Value> := map["width" := Int(10), "height" := Int(20)]

  /** The declaration after the margins are set too. */
  const MARGINED: map<string, Value> :=
    SIZED["margin_top" := Int(30)]["margin_right" := Int(40)]["margin_bottom" := Int(50)]["margin_left" := Int(60)]

  /** `width=10, height=20` on an empty declaration. */
  lemma SizesStep(s: Store)
    requires s.values == map[]
    ensures ApplyAll(s, STYLE_ARGS[..2]) == Outcome(Store(SIZED, Dirty), None)
  {
    var t := Store(map["width" := Int(10)], Dirty);
    assert STYLE_ARGS[..0] == [];
    ApplyAllStep(s, STYLE_ARGS, 0, s);
    ByOwnName(s, WIDTH, Int(10));
    ApplyAllStep(s, STYLE_ARGS, 1, t);
    ByOwnName(t, HEIGHT, Int(20));
  }

  /** `margin=(30, 40, 50, 60)` after the sizes: every edge is new, so each is stored. */
  lemma MarginsStep(t: Store)
    requires t.values == SIZED
    ensures SetAttr(t, "margin", Tuple([Int(30), Int(40), Int(50), Int(60)])) == Outcome(Store(MARGINED, Dirty), None)
  {
    MarginIsValid();
    var sides := Sides(Int(30), Int(40), Int(50), Int(60));
    assert Lookup("margin") == Some(Shorthand(MARGIN));
    assert Expand([Int(30), Int(40), Int(50), Int(60)]) == Some(sides);
    MarginSetsSides(t, Tuple([Int(30), Int(40), Int(50), Int(60)]), sides);
    EdgesStep(t);
  }

  /** The four edges assigned one after another after the sizes. */
  lemma EdgesStep(t: Store)
    requires t.values == SIZED && ValidFamily(MARGIN)
    ensures AssignSides(t, MARGIN, Sides(Int(30), Int(40), Int(50), Int(60))) == Outcome(Store(MARGINED, Dirty), None)
  {
    var a := SIZED["margin_top" := Int(30)];
    var b := a["margin_right" := Int(40)];
    var c := b["margin_bottom" := Int(50)];
    assert Assign(t, MARGIN_TOP, Int(30)) == Outcome(Store(a, Dirty), None);
    assert Assign(Store(a, Dirty), MARGIN_RIGHT, Int(40)) == Outcome(Store(b, Dirty), None);
    assert Assign(Store(b, Dirty), MARGIN_BOTTOM, Int(50)) == Outcome(Store(c, Dirty), None);
    assert Assign(Store(c, Dirty), MARGIN_LEFT, Int(60)) == Outcome(Store(MARGINED, Dirty), None);
  }

  /** `display=BLOCK` after the margins. */
  lemma DisplayStep(t: Store)
    requires t.values == MARGINED
    ensures SetAttr(t, "display", Scalar(BLOCK)) == Outcome(Store(MARGINED["display" := BLOCK], Dirty), None)
  {
    assert Lookup("display") == Some(Plain(DISPLAY));
    assert Accepts(DISPLAY.choices, BLOCK) by {
      assert DISPLAY.choices.literals[1] == BLOCK;
    }
    assert "display" !in MARGINED;
  }

  /** The whole `set` call of the rendering test on an empty declaration. */
  lemma StyledBulk(s: Store)
    requires s.values == map[]
    ensures BulkSet(s, STYLE_ARGS) == Outcome(Store(MARGINED["display" := BLOCK], Dirty), None)
  {
    assert Known(STYLE_ARGS[0].0) && Known(STYLE_ARGS[1].0) && Known(STYLE_ARGS[2].0) && Known(STYLE_ARGS[3].0);
    BulkSetCases(s, STYLE_ARGS);
    StyledApply(s);
  }

  /** The four keyword arguments applied in order. */
  lemma StyledApply(s: Store)
    requires s.values == map[]
    ensures ApplyAll(s, STYLE_ARGS) == Outcome(Store(MARGINED["display" := BLOCK], Dirty), None)
  {
    SizedAndMargined(s);
    ApplyAllStep(s, STYLE_ARGS, 3, Store(MARGINED, Dirty));
    DisplayStep(Store(MARGINED, Dirty));
    assert STYLE_ARGS[..4] == STYLE_ARGS;
  }

  /** The first three keyword arguments: the sizes, then the margins. */
  lemma SizedAndMargined(s: Store)
    requires s.values == map[]
    ensures ApplyAll(s, STYLE_ARGS[..3]) == Outcome(Store(MARGINED, Dirty), None)
  {
    SizesStep(s);
    ApplyAllStep(s, STYLE_ARGS, 2, Store(SIZED, Dirty));
    MarginsStep(Store(SIZED, Dirty));
  }

  /** The declaration the `set` call leaves is the one rendered. */
  lemma StyledIsStyled()
    ensures Styled(MARGINED["display" := BLOCK])
  {
  }

  /** `str()` of a declaration after one bulk assignment of sizes, margins and display. */
  method StrScenario() returns (text: string)
    ensures text ==
      "display: block; height: 20px; " +
      "margin-bottom: 50px; margin-left: 60px; " +
      "margin-right: 40px; margin-top: 30px; width: 10px"
  {
    var css := new CSS();
    StyledBulk(css.State());
    var e := css.SetMany(STYLE_ARGS);
    StyledIsStyled();
    StyledRender(css.values);
    text := css.ToText();
  }
}
